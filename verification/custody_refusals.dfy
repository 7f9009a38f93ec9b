/** When an evaluation answers `purge_state_changed`: the exact condition over whole runs. */
module CustodyRefusals {
  import opened Records
  import opened Transitions
  import opened CustodyInvariants
  import opened PurgeEvaluation
  import opened Platforms
  import opened CustodyThreads
  import opened CustodyAssertions
  import opened CustodyRuns
  import opened CustodyTheorems

  /** Step `i` of the run takes thread `tid` from one program point to another. */
  ghost predicate Moves(states: seq<System>, labels: seq<Label>, i: nat, tid: nat, pc: PurgePc, pc': PurgePc) {
    && i < |labels| && i + 1 < |states| && labels[i].Step? && labels[i].tid == tid && pc != pc'
    && tid in states[i].threads && states[i].threads[tid].Purging? && states[i].threads[tid].purge == pc
    && tid in states[i + 1].threads && states[i + 1].threads[tid] == states[i].threads[tid].(purge := pc')
  }

  ghost predicate Arrived(states: seq<System>, labels: seq<Label>, i: nat, tid: nat, c: Call) {
    && c.Purging? && i < |labels| && i + 1 < |states| && tid in states[i + 1].threads && states[i + 1].threads[tid] == c
    && tid in states[i].threads && states[i].threads[tid].Purging?
    && Moves(states, labels, i, tid, states[i].threads[tid].purge, c.purge)
  }

  lemma OneMove(p: Platform, y: System, l: Label, y': System, tid: nat)
    requires Next(p, y, l, y') && tid in y'.threads && y'.threads[tid].Purging? && y'.threads[tid].purge != Looking
    ensures tid in y.threads && y.threads[tid].Purging?
    ensures y.threads[tid] != y'.threads[tid] ==>
              l.Step? && l.tid == tid && y'.threads[tid] == y.threads[tid].(purge := y'.threads[tid].purge)
  {
  }

  /** The step that brought a purge thread to the program point it is at. */
  lemma {:induction false} LastMove(p: Platform, states: seq<System>, labels: seq<Label>, j: nat,
                                    tid: nat) returns (i: nat)
    requires IsRun(p, states, labels) && j < |states| && tid in states[j].threads
    requires states[j].threads[tid].Purging? && states[j].threads[tid].purge != Looking
    ensures i < j && Arrived(states, labels, i, tid, states[j].threads[tid])
    decreases j
  {
    assert Takes(p, states, labels, j - 1);
    OneMove(p, states[j - 1], labels[j - 1], states[j], tid);
    if states[j - 1].threads[tid] == states[j].threads[tid] {
      i := LastMove(p, states, labels, j - 1, tid);
    } else {
      i := j - 1;
    }
  }

  /** What a purge step of a run computes. */
  lemma MoveIsStep(p: Platform, states: seq<System>, labels: seq<Label>, i: nat, tid: nat, pc: PurgePc, pc': PurgePc)
    requires IsRun(p, states, labels) && Moves(states, labels, i, tid, pc, pc')
    ensures var c, s := states[i].threads[tid], states[i].shared;
            && PurgeInv(s, c.d, c.evaluationDate, pc) && StoreInv(s.store)
            && pc' == PurgeStep(Mint(s, labels[i].env.minted), c.d, c.evaluationDate, c.goal, pc, labels[i].env).pc
  {
    RunsAreSound(p, states, labels, i);
    assert Takes(p, states, labels, i) && ThreadOk(p, states[i], tid);
  }

  // ---- the three steps of a refusal ---------------------------------------------

  ghost predicate Idle(s: Store, d: DocumentId) {
    d in s.docs && s.docs[d].purgeStartedAt.None? && ActiveHolds(s.holds, d) == {}
  }

  lemma RereadingMoves(s: Shared, d: DocumentId, date: Option<Day>, goal: Goal, env: Env)
    requires RowsInv(s.store) && d in s.store.docs
    ensures var pc := PurgeStep(s, d, date, goal, Rereading, env).pc;
            && (Idle(s.store, d) ==> pc == ListingHolds(s.store.docs[d]))
            && (!Idle(s.store, d) ==> pc.Evaluated? && pc.e.reason != PurgeStateChanged)
  {
    assert RowInv(s.store, d);
    assert |ActiveHolds(s.store.holds, d)| == 0 <==> ActiveHolds(s.store.holds, d) == {};
  }

  /** The re-read of a refused call goes on to list hold rows exactly when the row shows no
      intent and no active hold; otherwise the refusal is explained at once. */
  lemma RereadIsExact(p: Platform, states: seq<System>, labels: seq<Label>, b: nat, tid: nat, pc: PurgePc)
    requires IsRun(p, states, labels) && Moves(states, labels, b, tid, Rereading, pc)
    ensures var d, s := states[b].threads[tid].d, states[b].shared.store;
            && (pc.ListingHolds? <==> Idle(s, d))
            && (!Idle(s, d) ==> pc.Evaluated? && pc.e.reason != PurgeStateChanged)
  {
    MoveIsStep(p, states, labels, b, tid, Rereading, pc);
    var c := states[b].threads[tid];
    RereadingMoves(Mint(states[b].shared, labels[b].env.minted), c.d, c.evaluationDate, c.goal, labels[b].env);
  }

  /** The listing answers `purge_state_changed` exactly when it finds no active hold row. */
  lemma ListingIsExact(p: Platform, states: seq<System>, labels: seq<Label>, c: nat, tid: nat, m: Document, pc: PurgePc)
    requires IsRun(p, states, labels) && Moves(states, labels, c, tid, ListingHolds(m), pc)
    ensures pc.Evaluated?
    ensures pc.e.reason == PurgeStateChanged
            <==> ActiveHolds(states[c].shared.store.holds, states[c].threads[tid].d) == {}
  {
    MoveIsStep(p, states, labels, c, tid, ListingHolds(m), pc);
  }

  // ---- where the answer comes from ----------------------------------------------

  /** Some release call releases a hold of document `d` at this step. */
  ghost predicate ReleasesHoldOf(y: System, l: Label, d: DocumentId) {
    exists h :: h in ActiveHolds(y.shared.store.holds, d) && Releases(y, l, h)
  }

  lemma ReleasedBetween(p: Platform, states: seq<System>, labels: seq<Label>, a: nat, b: nat, d: DocumentId)
    requires IsRun(p, states, labels) && a <= b < |states|
    requires ActiveHolds(states[a].shared.store.holds, d) != {} && ActiveHolds(states[b].shared.store.holds, d) == {}
    ensures exists k: nat :: a <= k < b && ReleasesHoldOf(states[k], labels[k], d)
    decreases b
  {
    var h :| h in ActiveHolds(states[a].shared.store.holds, d);
    assert a != b;
    if ActiveHolds(states[b - 1].shared.store.holds, d) == {} {
      ReleasedBetween(p, states, labels, a, b - 1, d);
    } else {
      var g :| g in ActiveHolds(states[b - 1].shared.store.holds, d);
      HoldLeavesByRelease(p, states, labels, b - 1, states[b - 1], states[b], d, g);
    }
  }

  lemma HoldLeavesByRelease(p: Platform, states: seq<System>, labels: seq<Label>, i: nat, y: System, y': System,
                            d: DocumentId, h: HoldId)
    requires IsRun(p, states, labels) && i < |labels| && y == states[i] && y' == states[i + 1]
    requires h in ActiveHolds(y.shared.store.holds, d) && h !in ActiveHolds(y'.shared.store.holds, d)
    ensures ReleasesHoldOf(y, labels[i], d)
  {
    SoundStep(p, states, labels, i, y, y');
    assert HoldRowEvolves(y.shared.store, y'.shared.store, h);
    if !Releases(y, labels[i], h) {
      HoldStaysOneStep(p, states, labels, i, y, y', h);
    }
  }

  lemma ListingCameFrom(s: Shared, d: DocumentId, date: Option<Day>, goal: Goal, pc: PurgePc, env: Env)
    requires PurgeInv(s, d, date, pc)
    ensures var pc' := PurgeStep(s, d, date, goal, pc, env).pc;
            && (pc'.Evaluated? && pc'.e.reason == PurgeStateChanged && pc' != pc ==> pc.ListingHolds?)
            && (pc'.ListingHolds? && pc' != pc ==> pc.Rereading?)
            && (pc'.Rereading? && pc' != pc ==> pc.Granting? || pc.Withdrawing?)
  {
  }

  /** A refused grant or withdrawal whose re-read finds the document idle was a grant, and
      an active hold refused it. */
  lemma RefusedByHold(p: Platform, states: seq<System>, labels: seq<Label>, a: nat, b: nat, tid: nat, pc: PurgePc)
    requires IsRun(p, states, labels) && Moves(states, labels, a, tid, pc, Rereading) && a < b < |states|
    requires pc.Granting? || pc.Withdrawing?
    requires Idle(states[b].shared.store, states[a].threads[tid].d)
    ensures pc.Granting? && ActiveHolds(states[a].shared.store.holds, states[a].threads[tid].d) != {}
  {
    var d, env := states[a].threads[tid].d, labels[a].env;
    MoveIsStep(p, states, labels, a, tid, pc, Rereading);
    RunsAreSound(p, states, labels, b);
    RunsOnlyAccumulate(p, states, labels, a, b);
    IdleRefusals(states[a].shared.store, states[b].shared.store, d, env.now);
  }

  lemma IdleRefusals(refused: Store, reread: Store, d: DocumentId, now: Instant)
    requires RowsInv(refused) && RowsInv(reread) && StoreEvolves(refused, reread) && d in refused.docs
        && Idle(reread, d)
    ensures MarkNotEligible(refused, d, now).value.Some?
    ensures MarkEligible(refused, d, now, now).value.None? ==> ActiveHolds(refused.holds, d) != {}
  {
    PurgeStateChangedIsExact(refused, reread, reread, d, now);
  }

  /** The moments of a call that ends in `purge_state_changed`: at `a` an active hold refuses
      its grant, at `k` a hold of the document is released, at `b` the row is re-read and
      at `c` the hold rows are listed, both idle. */
  ghost predicate StateChangedAt(states: seq<System>, labels: seq<Label>, tid: nat, d: DocumentId, a: nat, k: nat,
                                 b: nat, c: nat)
  {
    && a <= k < b < c < |labels| && |states| == |labels| + 1
    && Moves(states, labels, a, tid, Granting, Rereading) && states[a].threads[tid].d == d
    && ActiveHolds(states[a].shared.store.holds, d) != {}
    && ReleasesHoldOf(states[k], labels[k], d)
    && tid in states[b].threads && states[b].threads[tid].Purging? && states[b].threads[tid].purge == Rereading
    && Idle(states[b].shared.store, d)
    && ActiveHolds(states[c].shared.store.holds, d) == {}
  }

  /** Whenever any call of any run answers `purge_state_changed`, that is what happened. In
      particular it never follows a refused withdrawal, and never happens unless a hold of
      the document is released between the refusal and the re-read. */
  lemma StateChangedIsExplained(p: Platform, states: seq<System>, labels: seq<Label>, j: nat, tid: nat)
    requires IsRun(p, states, labels) && j < |states| && tid in states[j].threads && states[j].threads[tid].Purging?
    requires states[j].threads[tid].purge.Evaluated? && states[j].threads[tid].purge.e.reason == PurgeStateChanged
    ensures exists a: nat, k: nat, b: nat, c: nat ::
              c < j && StateChangedAt(states, labels, tid, states[j].threads[tid].d, a, k, b, c)
  {
    var c := LastMove(p, states, labels, j, tid);
    var b, pc := ListingBefore(p, states, labels, c, tid, states[j].threads[tid].purge);
    var a, from := RereadBefore(p, states, labels, b, tid, pc);
    RefusedByHold(p, states, labels, a, b, tid, from);
    var d := states[j].threads[tid].d;
    ReleasedBetween(p, states, labels, a, b, d);
    var k: nat :| a <= k < b && ReleasesHoldOf(states[k], labels[k], d);
    assert StateChangedAt(states, labels, tid, d, a, k, b, c);
  }

  lemma ListingBefore(p: Platform, states: seq<System>, labels: seq<Label>, c: nat, tid: nat,
                      pc': PurgePc) returns (b: nat, pc: PurgePc)
    requires IsRun(p, states, labels) && pc'.Evaluated? && pc'.e.reason == PurgeStateChanged
    requires c < |labels| && tid in states[c].threads && states[c].threads[tid].Purging?
    requires Moves(states, labels, c, tid, states[c].threads[tid].purge, pc')
    ensures b < c && pc.ListingHolds? && Moves(states, labels, b, tid, Rereading, pc)
    ensures states[c].threads[tid] == states[b].threads[tid].(purge := pc)
    ensures Idle(states[b].shared.store, states[b].threads[tid].d)
    ensures ActiveHolds(states[c].shared.store.holds, states[c].threads[tid].d) == {}
  {
    pc := states[c].threads[tid].purge;
    MoveIsStep(p, states, labels, c, tid, pc, pc');
    var t := states[c].threads[tid];
    PurgeInvMinted(states[c].shared, labels[c].env.minted, t.d, t.evaluationDate, pc);
    ListingCameFrom(Mint(states[c].shared, labels[c].env.minted), t.d, t.evaluationDate, t.goal, pc, labels[c].env);
    ListingIsExact(p, states, labels, c, tid, pc.m, pc');
    b := LastMove(p, states, labels, c, tid);
    var u := states[b].threads[tid];
    MoveIsStep(p, states, labels, b, tid, u.purge, pc);
    PurgeInvMinted(states[b].shared, labels[b].env.minted, u.d, u.evaluationDate, u.purge);
    ListingCameFrom(Mint(states[b].shared, labels[b].env.minted), u.d, u.evaluationDate, u.goal, u.purge,
        labels[b].env);
    RereadIsExact(p, states, labels, b, tid, pc);
  }

  lemma PurgeInvMinted(s: Shared, id: string, d: DocumentId, date: Option<Day>, pc: PurgePc)
    requires PurgeInv(s, d, date, pc)
    ensures PurgeInv(Mint(s, id), d, date, pc)
  {
  }

  lemma RereadBefore(p: Platform, states: seq<System>, labels: seq<Label>, b: nat, tid: nat,
                     pc': PurgePc) returns (a: nat, pc: PurgePc)
    requires IsRun(p, states, labels) && Moves(states, labels, b, tid, Rereading, pc')
    ensures a < b && Moves(states, labels, a, tid, pc, Rereading) && (pc.Granting? || pc.Withdrawing?)
    ensures states[b].threads[tid] == states[a].threads[tid].(purge := Rereading)
  {
    a := LastMove(p, states, labels, b, tid);
    var u := states[a].threads[tid];
    pc := u.purge;
    MoveIsStep(p, states, labels, a, tid, pc, Rereading);
    PurgeInvMinted(states[a].shared, labels[a].env.minted, u.d, u.evaluationDate, pc);
    ListingCameFrom(Mint(states[a].shared, labels[a].env.minted), u.d, u.evaluationDate, u.goal, pc, labels[a].env);
  }

  /** While nobody releases a hold of the document between a refusal and its re-read, the
      re-read explains the refusal at once. */
  lemma UnreleasedRefusalsAreExplained(p: Platform, states: seq<System>, labels: seq<Label>, a: nat, b: nat, tid: nat,
                                       pc: PurgePc, pc': PurgePc)
    requires IsRun(p, states, labels) && a < b && (pc.Granting? || pc.Withdrawing?)
    requires Moves(states, labels, a, tid, pc, Rereading) && Moves(states, labels, b, tid, Rereading, pc')
    requires states[b].threads[tid].d == states[a].threads[tid].d
    requires forall k: nat :: a <= k < b ==> !ReleasesHoldOf(states[k], labels[k], states[a].threads[tid].d)
    ensures pc'.Evaluated? && pc'.e.reason != PurgeStateChanged
  {
    var d := states[a].threads[tid].d;
    RereadIsExact(p, states, labels, b, tid, pc');
    if Idle(states[b].shared.store, d) {
      RefusedByHold(p, states, labels, a, b, tid, pc);
      ReleasedBetween(p, states, labels, a, b, d);
    }
  }
}
