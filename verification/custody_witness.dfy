/** A run from the empty system in which an evaluation answers `purge_state_changed`. */
module CustodyWitness {
  import opened Records
  import opened Transitions
  import opened CustodyInvariants
  import opened PurgeEvaluation
  import opened Platforms
  import opened CustodyThreads
  import opened CustodyAssertions
  import opened CustodyRuns

  ghost predicate RunTo(p: Platform, states: seq<System>, labels: seq<Label>, y: System) {
    IsRun(p, states, labels) && states[|states| - 1] == y
  }

  ghost predicate Reached(p: Platform, y: System) {
    exists states, labels :: RunTo(p, states, labels, y)
  }

  lemma ReachedIsSound(p: Platform, y: System)
    requires Reached(p, y)
    ensures SysInv(p, y)
  {
    var states, labels :| RunTo(p, states, labels, y);
    RunsAreSound(p, states, labels, |states| - 1);
  }

  lemma IdsAreIssued(p: Platform, y: System)
    requires Reached(p, y)
    ensures y.shared.store.docs.Keys + y.shared.store.holds.Keys <= y.shared.issued
  {
    ReachedIsSound(p, y);
    forall d | d in y.shared.store.docs ensures d in y.shared.issued { assert DocOk(p, y.shared, d); }
  }

  lemma RowIsSound(p: Platform, y: System, d: DocumentId)
    requires Reached(p, y) && d in y.shared.store.docs
    ensures RowInv(y.shared.store, d)
  {
    ReachedIsSound(p, y);
  }

  lemma ReachedOn(p: Platform, y: System, l: Label, y': System)
    requires Reached(p, y) && Next(p, y, l, y')
    ensures Reached(p, y')
  {
    var states, labels :| RunTo(p, states, labels, y);
    var states', labels' := states + [y'], labels + [l];
    forall i: nat | i < |labels'| ensures Takes(p, states', labels', i) {
      if i < |labels| { assert Takes(p, states, labels, i); }
    }
    assert RunTo(p, states', labels', y');
  }

  // ---- identifiers that are never used up ---------------------------------------

  function Letters(n: nat): (id: string)
    ensures |id| == n && PlainId(id)
  {
    if n == 0 then "" else "a" + Letters(n - 1)
  }

  lemma {:induction false} LongerThanAll(used: set<string>) returns (n: nat)
    ensures forall id :: id in used ==> |id| < n
  {
    if used == {} { n := 0; }
    else {
      var id :| id in used;
      n := LongerThanAll(used - {id});
      n := if n > |id| then n else |id| + 1;
    }
  }

  lemma UnusedId(used: set<string>) returns (id: string)
    ensures PlainId(id) && id !in used
  {
    var n := LongerThanAll(used);
    id := Letters(n);
  }

  // ---- steps of the run ---------------------------------------------------------

  lemma Spawned(p: Platform, y: System, tid: nat, c: Call) returns (y': System)
    requires Reached(p, y) && tid !in y.threads && Initial(c, y.shared.today)
    ensures Reached(p, y') && y' == y.(threads := y.threads[tid := c])
  {
    y' := y.(threads := y.threads[tid := c]);
    ReachedOn(p, y, Spawn(tid, c), y');
  }

  function Alone(minted: string): Env {
    Env(0, minted, false)
  }

  lemma StepOf(p: Platform, y: System, tid: nat) returns (minted: string, y': System)
    requires Reached(p, y) && tid in y.threads
    ensures Reached(p, y') && minted !in y.shared.store.docs && minted !in y.shared.store.holds
    ensures var t := StepCall(p, Mint(y.shared, minted), y.threads[tid], Alone(minted));
            y' == System(t.shared, y.threads[tid := t.pc])
  {
    minted := UnusedId(y.shared.issued);
    IdsAreIssued(p, y);
    var t := StepCall(p, Mint(y.shared, minted), y.threads[tid], Alone(minted));
    y' := System(t.shared, y.threads[tid := t.pc]);
    ReachedOn(p, y, Step(tid, Alone(minted)), y');
  }

  /** A step that reads only: the thread's program point moves, the store stays. */
  lemma Read(p: Platform, y: System, tid: nat, pc: Call) returns (y': System)
    requires Reached(p, y) && tid in y.threads
    requires forall id :: var t := StepCall(p, Mint(y.shared, id), y.threads[tid], Alone(id));
                          t.pc == pc && t.shared == Mint(y.shared, id)
    ensures Reached(p, y') && y'.threads == y.threads[tid := pc]
    ensures y'.shared.store == y.shared.store && y'.shared.today == y.shared.today
  {
    var minted;
    minted, y' := StepOf(p, y, tid);
  }

  const INPUT := DocumentInput("", "", "", "", "", "", Some(0), None, None, map[])

  lemma EmptySystem(p: Platform) returns (y: System)
    ensures Reached(p, y) && y == System(Shared(EMPTY_STORE, map[], 0, map[], map[], {}, {}, {}), map[])
  {
    y := System(Shared(EMPTY_STORE, map[], 0, map[], map[], {}, {}, {}), map[]);
    assert RunTo(p, [y], [], y);
  }

  lemma DeliveryToPut(p: Platform) returns (y: System)
    requires p.acceptsFormat("", "", [])
    ensures Reached(p, y) && y.threads == map[0 := Archiving(INPUT, [], Putting)]
    ensures y.shared.store == EMPTY_STORE && y.shared.today == 0
  {
    y := EmptySystem(p);
    y := Spawned(p, y, 0, Archiving(INPUT, [], Admission));
    y := Read(p, y, 0, Archiving(INPUT, [], CheckingReferences));
    y := Read(p, y, 0, Archiving(INPUT, [], CheckingRequest));
    y := Read(p, y, 0, Archiving(INPUT, [], Putting));
    assert y.threads == map[0 := Archiving(INPUT, [], Putting)];
  }

  /** The document `d`, its retention reached, with these purge, hold and release threads. */
  ghost predicate Stands(y: System, d: DocumentId, evaluation: PurgePc) {
    && y.shared.today == 0 && d in y.shared.store.docs
    && y.shared.store.docs[d].input == INPUT && y.shared.store.docs[d].purgeStatus == NotEligible
    && y.shared.store.docs[d].purgeStartedAt.None?
    && 1 in y.threads && y.threads[1] == Purging(d, None, Eligibility, evaluation)
  }

  lemma DocumentArchived(p: Platform) returns (y: System, d: DocumentId)
    requires p.acceptsFormat("", "", [])
    ensures Reached(p, y) && y.threads.Keys == {0} && y.shared.today == 0 && y.shared.store.holds == map[]
    ensures d in y.shared.store.docs && y.shared.store.docs[d].input == INPUT
    ensures y.shared.store.docs[d].purgeStatus == NotEligible && y.shared.store.docs[d].purgeStartedAt.None?
  {
    y := DeliveryToPut(p);
    d, y := StepOf(p, y, 0);
    var minted;
    minted, y := StepOf(p, y, 0);
  }

  lemma EvaluationGranting(p: Platform) returns (y: System, d: DocumentId)
    requires p.acceptsFormat("", "", [])
    ensures Reached(p, y) && y.threads.Keys == {0, 1} && Stands(y, d, Granting) && y.shared.store.holds == map[]
  {
    y, d := DocumentArchived(p);
    var x := y.shared.store.docs[d];
    RowIsSound(p, y, d);
    RefreshIsIdentity(y.shared.store, d, 0);
    y := Spawned(p, y, 1, Purging(d, None, Eligibility, Looking));
    y := Read(p, y, 1, Purging(d, None, Eligibility, Refreshing(x)));
    y := Read(p, y, 1, Purging(d, None, Eligibility, Evaluating(x)));
    assert ActiveHolds(y.shared.store.holds, d) == {};
    y := Read(p, y, 1, Purging(d, None, Eligibility, Granting));
  }

  lemma HoldPlaced(p: Platform) returns (y: System, d: DocumentId, h: HoldId)
    requires p.acceptsFormat("", "", [])
    ensures Reached(p, y) && y.threads.Keys == {0, 1, 2} && Stands(y, d, Granting)
    ensures ActiveHolds(y.shared.store.holds, d) == {h}
  {
    y, d := EvaluationGranting(p);
    y := Spawned(p, y, 2, Holding(d, "", "", "", HoldLooking));
    y := Read(p, y, 2, Holding(d, "", "", "", HoldListing));
    assert MatchingHolds(y.shared.store.holds, d, "", "") == {};
    y := Read(p, y, 2, Holding(d, "", "", "", Admitting));
    h, y := StepOf(p, y, 2);
    assert ActiveHolds(y.shared.store.holds, d) == {h};
  }

  lemma HoldRefuses(p: Platform) returns (y: System, d: DocumentId, h: HoldId)
    requires p.acceptsFormat("", "", [])
    ensures Reached(p, y) && y.threads.Keys == {0, 1, 2} && Stands(y, d, Rereading)
    ensures ActiveHolds(y.shared.store.holds, d) == {h}
  {
    y, d, h := HoldPlaced(p);
    assert MarkEligible(y.shared.store, d, 0, 0) == Answer(y.shared.store, None) by {
      assert |ActiveHolds(y.shared.store.holds, d)| == 1;
    }
    y := Read(p, y, 1, Purging(d, None, Eligibility, Rereading));
  }

  lemma HoldReleasedMeanwhile(p: Platform) returns (y: System, d: DocumentId)
    requires p.acceptsFormat("", "", [])
    ensures Reached(p, y) && y.threads.Keys == {0, 1, 2, 3} && Stands(y, d, Rereading)
    ensures ActiveHolds(y.shared.store.holds, d) == {}
  {
    var h, minted;
    y, d, h := HoldRefuses(p);
    RowIsSound(p, y, d);
    assert h in ActiveHolds(y.shared.store.holds, d);
    var release := Release("", 0, "");
    y := Spawned(p, y, 3, Releasing(d, h, release, ReleaseLooking));
    y := Read(p, y, 3, Releasing(d, h, release, ReleasingHold));
    ReleasedHolds(y.shared.store.holds, h, release, d);
    minted, y := StepOf(p, y, 3);
  }

  lemma ListedIdle(p: Platform) returns (y: System, d: DocumentId, x: Document)
    requires p.acceptsFormat("", "", [])
    ensures Reached(p, y) && 1 in y.threads
    ensures y.threads[1] == Purging(d, None, Eligibility, Evaluated(Evaluation(x, false, PurgeStateChanged)))
  {
    y, d := HoldReleasedMeanwhile(p);
    RowIsSound(p, y, d);
    x := y.shared.store.docs[d];
    assert ReclassifyRow(x).None?;
    y := Read(p, y, 1, Purging(d, None, Eligibility, ListingHolds(x)));
    y := Read(p, y, 1, Purging(d, None, Eligibility, Evaluated(Evaluation(x, false, PurgeStateChanged))));
  }

  /** `purge_state_changed` is reached from the empty system, on any platform that admits the
      artifact: archive a document whose retention has been reached, start an evaluation,
      place a hold, let it refuse the grant, release it, and let the evaluation re-read. */
  lemma StateChangedIsReached(p: Platform)
    requires p.acceptsFormat("", "", [])
    ensures exists states, labels, y :: RunTo(p, states, labels, y) && 1 in y.threads && y.threads[1].Purging?
              && y.threads[1].purge.Evaluated? && y.threads[1].purge.e.reason == PurgeStateChanged
  {
    var y, d, x := ListedIdle(p);
    var states, labels :| RunTo(p, states, labels, y);
  }
}
