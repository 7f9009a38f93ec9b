/** Safety over whole runs: any number of purge, evaluation, hold, release, transition,
    resolution and archive calls, interleaved at every step, with crashes anywhere. */
module CustodyRuns {
  import opened Records
  import opened Transitions
  import opened CustodyInvariants
  import opened Histories
  import opened Supersession
  import opened PurgeEvaluation
  import opened DecisionActions
  import opened Platforms
  import opened CustodyThreads
  import opened CustodyAssertions
  import opened CustodySteps

  ghost predicate ThreadOk(p: Platform, y: System, tid: nat) {
    tid in y.threads && CallInv(p, y.shared, y.threads[tid])
  }

  ghost predicate Apart(y: System, a: nat, b: nat) {
    a in y.threads && b in y.threads && Own(y.threads[a]) !! Own(y.threads[b])
  }

  ghost predicate Owned(y: System, id: DocumentId) {
    exists tid :: tid in y.threads && id in Own(y.threads[tid])
  }

  ghost predicate SysInv(p: Platform, y: System) {
    && SharedInv(p, y.shared)
    && (forall tid {:trigger ThreadOk(p, y, tid)} :: tid in y.threads ==> ThreadOk(p, y, tid))
    && (forall a, b {:trigger Apart(y, a, b)} :: a in y.threads && b in y.threads && a != b ==> Apart(y, a, b))
    && (forall id {:trigger Owned(y, id)} {:trigger Stray(y.shared, {}, id)} :: Stray(y.shared, {}, id)
         ==> Owned(y, id))
  }

  lemma StartIsSound(p: Platform, y: System)
    requires Start(y)
    ensures SysInv(p, y)
  {
    EmptyStoreIsSound();
  }

  lemma CallKeeps(p: Platform, s: Shared, c: Call, env: Env)
    requires SharedInv(p, s) && CallInv(p, s, c) && Minted(s, env.minted)
    ensures var t := StepCall(p, s, c, env);
            Guarantee(p, s, t.shared, Own(c), Own(t.pc), env.minted) && CallInv(p, t.shared, t.pc)
  {
    match c
    case Purging(d, date, goal, pc) => PurgingKeeps(p, s, d, date, goal, pc, env);
    case Holding(d, reason, authority, actor, pc) => HoldingKeeps(p, s, d, reason, authority, actor, pc, env);
    case Releasing(d, id, release, pc) => ReleasingKeeps(p, s, d, id, release, pc, env);
    case Linking(f, g, kind, why, pc) => LinkingKeeps(p, s, f, g, kind, why, pc, env);
    case Resolving(d, pc) => ResolvingKeeps(p, s, d, pc, env);
    case Archiving(input, content, pc) => ArchivingKeeps(p, s, input, content, pc, env);
    case Crashed => IdleStep(p, s, {}, env.minted);
  }

  lemma OwnIsPlaced(p: Platform, s: Shared, c: Call, id: DocumentId)
    requires CallInv(p, s, c) && id in Own(c)
    ensures id in s.placed && id !in s.store.docs && id !in s.orphans && s.placed[id] in s.objects
  {
  }

  /** One thread moves under its guarantee; every other thread's assertion survives. */
  lemma OthersSurvive(p: Platform, y: System, y': System, tid: nat, minted: string)
    requires SysInv(p, y) && tid in y.threads && tid in y'.threads && y'.threads == y.threads[tid := y'.threads[tid]]
    requires Guarantee(p, y.shared, y'.shared, Own(y.threads[tid]), Own(y'.threads[tid]), minted)
    requires minted !in y.shared.placed || Own(y'.threads[tid]) <= Own(y.threads[tid])
    requires CallInv(p, y'.shared, y'.threads[tid])
    ensures SysInv(p, y')
  {
    var own, own' := Own(y.threads[tid]), Own(y'.threads[tid]);
    forall other | other in y'.threads ensures ThreadOk(p, y', other) {
      if other != tid {
        assert ThreadOk(p, y, other) && Apart(y, other, tid);
        AssertionsAreStable(p, y.shared, y'.shared, own, y.threads[other]);
      }
    }
    forall a, b | a in y'.threads && b in y'.threads && a != b ensures Apart(y', a, b) {
      assert Apart(y, a, b) && ThreadOk(p, y, a) && ThreadOk(p, y, b);
      if a == tid { OwnsDisjoint(p, y, tid, b, own', minted); }
      if b == tid { OwnsDisjoint(p, y, tid, a, own', minted); }
    }
    forall id | Stray(y'.shared, {}, id) ensures Owned(y', id) {
      if id in own' { assert tid in y'.threads && id in Own(y'.threads[tid]); }
      else {
        assert Stray(y'.shared, own', id);
        assert Stray(y.shared, own, id) && Stray(y.shared, {}, id) && Owned(y, id);
        var other :| other in y.threads && id in Own(y.threads[other]);
        assert other in y'.threads && id in Own(y'.threads[other]);
      }
    }
  }

  lemma OwnsDisjoint(p: Platform, y: System, tid: nat, other: nat, own': set<DocumentId>, minted: string)
    requires Apart(y, tid, other) || Apart(y, other, tid)
    requires ThreadOk(p, y, other) && own' <= Own(y.threads[tid]) + {minted}
    requires minted !in y.shared.placed || own' <= Own(y.threads[tid])
    ensures own' !! Own(y.threads[other])
  {
    forall id | id in Own(y.threads[other]) ensures id !in own' { OwnIsPlaced(p, y.shared, y.threads[other], id); }
  }

  /** The clock and the minting of identifiers disturb nobody. */
  lemma QuietKeeps(p: Platform, y: System, s': Shared)
    requires SysInv(p, y) && SharedInv(p, s') && Evolves(y.shared, s', {})
    requires s'.store.docs.Keys == y.shared.store.docs.Keys && s'.placed == y.shared.placed
    requires s'.objects == y.shared.objects && s'.orphans == y.shared.orphans
    ensures SysInv(p, y.(shared := s'))
  {
    var y' := y.(shared := s');
    forall tid | tid in y'.threads ensures ThreadOk(p, y', tid) {
      assert ThreadOk(p, y, tid);
      AssertionsAreStable(p, y.shared, s', {}, y.threads[tid]);
    }
    forall a, b | a in y'.threads && b in y'.threads && a != b ensures Apart(y', a, b) { assert Apart(y, a, b); }
    forall id | Stray(s', {}, id) ensures Owned(y', id) {
      assert Stray(y.shared, {}, id) && Owned(y, id);
      var tid :| tid in y.threads && id in Own(y.threads[tid]);
      assert tid in y'.threads && id in Own(y'.threads[tid]);
    }
  }

  lemma TickKeeps(p: Platform, s: Shared, today: Day)
    requires SharedInv(p, s) && today >= s.today
    ensures SharedInv(p, s.(today := today)) && Evolves(s, s.(today := today), {})
  {
    var s' := s.(today := today);
    StoreIsItself(s.store);
    SamePutsLeftAlone(s, s', {});
    forall d | d in s'.store.docs ensures DocOk(p, s', d) { assert DocOk(p, s, d); }
    NothingPlaced(p, s, s');
    OrphansRemain(p, s, s', {});
  }

  /** Saving an existing document again moves its `updated_at` and nothing else. */
  lemma TouchIsOneColumn(s: Store, d: DocumentId, now: Instant)
    requires RowsInv(s) && d in s.docs
    ensures Save(s, s.docs[d].(updatedAt := now)).store == s.(docs := s.docs[d := s.docs[d].(updatedAt := now)])
  {
    assert RowInv(s, d);
  }

  lemma TouchKeepsStore(s: Store, d: DocumentId, now: Instant)
    requires StoreInv(s) && d in s.docs
    ensures var s' := Save(s, s.docs[d].(updatedAt := now)).store; StoreInv(s') && StoreEvolves(s, s')
  {
    var x := s.docs[d].(updatedAt := now);
    assert RowInv(s, d) && x.documentId == d;
    TransitionsKeepInvariants(s, DoSave(x));
    TransitionsOnlyAccumulate(s, DoSave(x));
  }

  lemma TouchKeepsRows(p: Platform, s: Shared, d: DocumentId, now: Instant)
    requires SharedInv(p, s) && d in s.store.docs
    ensures var s' := Touched(s, d, now); forall e {:trigger DocOk(p, s', e)} :: e in s'.store.docs ==> DocOk(p, s', e)
  {
    var s' := Touched(s, d, now);
    TouchIsOneColumn(s.store, d, now);
    forall e | e in s'.store.docs ensures DocOk(p, s', e) { assert DocOk(p, s, e); }
  }

  lemma TouchKeeps(p: Platform, s: Shared, d: DocumentId, now: Instant)
    requires SharedInv(p, s) && d in s.store.docs
    ensures SharedInv(p, Touched(s, d, now)) && Evolves(s, Touched(s, d, now), {})
    ensures Touched(s, d, now).store.docs.Keys == s.store.docs.Keys
  {
    TouchIsOneColumn(s.store, d, now);
    TouchKeepsStore(s.store, d, now);
    TouchKeepsShared(p, s, Touched(s, d, now), d);
    TouchEvolves(s, Touched(s, d, now));
  }

  lemma TouchKeepsShared(p: Platform, s: Shared, s': Shared, d: DocumentId)
    requires SharedInv(p, s) && d in s.store.docs && s' == s.(store := s'.store) && StoreInv(s'.store)
    requires d in s'.store.docs
    requires s'.store == s.store.(docs := s.store.docs[d := s.store.docs[d].(updatedAt := s'.store.docs[d].updatedAt)])
    ensures SharedInv(p, s')
  {
    assert s' == Touched(s, d, s'.store.docs[d].updatedAt) by
        { TouchIsOneColumn(s.store, d, s'.store.docs[d].updatedAt); }
    TouchKeepsRows(p, s, d, s'.store.docs[d].updatedAt);
    NothingPlaced(p, s, s');
    OrphansRemain(p, s, s', {});
  }

  lemma TouchEvolves(s: Shared, s': Shared)
    requires s' == s.(store := s'.store) && StoreEvolves(s.store, s'.store) && s'.store.docs.Keys == s.store.docs.Keys
    ensures Evolves(s, s', {})
  {
    SamePutsLeftAlone(s, s', {});
  }

  lemma SpawnKeeps(p: Platform, y: System, tid: nat, c: Call)
    requires SysInv(p, y) && tid !in y.threads && Initial(c, y.shared.today)
    ensures SysInv(p, y.(threads := y.threads[tid := c]))
  {
    var y' := y.(threads := y.threads[tid := c]);
    forall t | t in y'.threads ensures ThreadOk(p, y', t) { if t != tid { assert ThreadOk(p, y, t); } }
    forall a, b | a in y'.threads && b in y'.threads && a != b ensures Apart(y', a, b) {
      if a != tid && b != tid { assert Apart(y, a, b); }
    }
    forall id | Stray(y'.shared, {}, id) ensures Owned(y', id) {
      assert Owned(y, id);
      var t :| t in y.threads && id in Own(y.threads[t]);
      assert t in y'.threads && id in Own(y'.threads[t]);
    }
  }

  /** How one moment of a run relates to a later one. */
  ghost predicate Later(s: Shared, s': Shared) {
    && StoreEvolves(s.store, s'.store)
    && s.today <= s'.today && s.erased <= s'.erased
    && (forall d {:trigger d in s.archived} :: d in s.archived ==> d in s'.archived && s'.archived[d] == s.archived[d])
  }

  lemma LaterComposes(a: Shared, b: Shared, c: Shared)
    requires Later(a, b) && Later(b, c)
    ensures Later(a, c)
  {
    EvolutionComposes(a.store, b.store, c.store);
  }

  lemma NextKeeps(p: Platform, y: System, l: Label, y': System)
    requires SysInv(p, y) && Next(p, y, l, y')
    ensures SysInv(p, y') && Later(y.shared, y'.shared)
  {
    StoreIsItself(y.shared.store);
    match l
    case Spawn(tid, c) => SpawnKeeps(p, y, tid, c);
    case Tick(today) =>
      TickKeeps(p, y.shared, today);
      QuietKeeps(p, y, y.shared.(today := today));
    case Crash(tid) =>
      assert ThreadOk(p, y, tid);
      forall id | id in Own(y.threads[tid])
          ensures id in y.shared.placed && id !in y.shared.store.docs && y.shared.placed[id] in y.shared.objects {
        OwnIsPlaced(p, y.shared, y.threads[tid], id);
      }
      StrandKeeps(p, y.shared, Own(y.threads[tid]));
      OthersSurvive(p, y, y', tid, "");
    case Step(tid, env) => StepKeeps(p, y, tid, env, y');
    case Touch(d, now) =>
      TouchKeeps(p, y.shared, d, now);
      QuietKeeps(p, y, Touched(y.shared, d, now));
  }

  lemma StepKeeps(p: Platform, y: System, tid: nat, env: Env, y': System)
    requires SysInv(p, y) && Next(p, y, Step(tid, env), y')
    ensures SysInv(p, y') && Later(y.shared, y'.shared)
  {
    var s := Mint(y.shared, env.minted);
    Minting(p, y.shared, env.minted);
    QuietKeeps(p, y, s);
    assert ThreadOk(p, y.(shared := s), tid);
    CallKeeps(p, s, y.threads[tid], env);
    OthersSurvive(p, y.(shared := s), y', tid, env.minted);
  }

  lemma RunStep(p: Platform, states: seq<System>, labels: seq<Label>, i: nat, y: System, y': System)
    requires IsRun(p, states, labels) && i < |labels| && y == states[i] && y' == states[i + 1] && SysInv(p, y)
    ensures SysInv(p, y') && Later(y.shared, y'.shared)
  {
    assert Takes(p, states, labels, i);
    NextKeeps(p, y, labels[i], y');
  }

  lemma RunStarts(p: Platform, states: seq<System>, labels: seq<Label>, y: System)
    requires IsRun(p, states, labels) && y == states[0]
    ensures SysInv(p, y)
  {
    StartIsSound(p, y);
  }

  /** Every state of every run satisfies the system invariant. */
  lemma {:induction false} RunsAreSound(p: Platform, states: seq<System>, labels: seq<Label>, i: nat)
    requires IsRun(p, states, labels) && i < |states|
    ensures SysInv(p, states[i])
    decreases i
  {
    var y := states[i];
    if i == 0 {
      RunStarts(p, states, labels, y);
    } else {
      var before := states[i - 1];
      RunsAreSound(p, states, labels, i - 1);
      RunStep(p, states, labels, i - 1, before, y);
    }
  }

  lemma SoundStep(p: Platform, states: seq<System>, labels: seq<Label>, i: nat, y: System, y': System)
    requires IsRun(p, states, labels) && i < |labels| && y == states[i] && y' == states[i + 1]
    ensures Later(y.shared, y'.shared)
  {
    RunsAreSound(p, states, labels, i);
    RunStep(p, states, labels, i, y, y');
  }

  /** Between any two moments of a run nothing archived, destroyed or linked reverts:
      intent, purge instant and PURGED stay as they are once set. */
  lemma {:induction false} RunsOnlyAccumulate(p: Platform, states: seq<System>, labels: seq<Label>, i: nat, j: nat)
    requires IsRun(p, states, labels) && i <= j < |states|
    ensures Later(states[i].shared, states[j].shared)
    decreases j
  {
    if i == j { StoreIsItself(states[i].shared.store); }
    else {
      RunsOnlyAccumulate(p, states, labels, i, j - 1);
      SoundStep(p, states, labels, j - 1, states[j - 1], states[j]);
      LaterComposes(states[i].shared, states[j - 1].shared, states[j].shared);
    }
  }
}
