/** Runs of the repository: any sequence of production transitions, in any order. */
module Histories {
  import opened Records
  import opened Transitions
  import opened CustodyInvariants

  ghost function PerformAll(s: Store, cs: seq<Command>): Store
    decreases |cs|
  {
    if cs == [] then s else PerformAll(Perform(s, cs[0]).store, cs[1..])
  }

  ghost predicate AdmissibleAll(s: Store, cs: seq<Command>)
    decreases |cs|
  {
    cs == [] || (Admissible(s, cs[0]) && AdmissibleAll(Perform(s, cs[0]).store, cs[1..]))
  }

  /** Over a whole run the invariants hold throughout and nothing archived reverts. */
  lemma {:induction false} RunsKeepInvariants(s: Store, cs: seq<Command>)
    requires StoreInv(s) && AdmissibleAll(s, cs)
    ensures StoreInv(PerformAll(s, cs)) && StoreEvolves(s, PerformAll(s, cs))
    decreases |cs|
  {
    if cs == [] {
      StoreIsItself(s);
    } else {
      var next := Perform(s, cs[0]).store;
      TransitionsKeepInvariants(s, cs[0]);
      TransitionsOnlyAccumulate(s, cs[0]);
      RunsKeepInvariants(next, cs[1..]);
      EvolutionComposes(s, next, PerformAll(next, cs[1..]));
    }
  }

  /** No reachable store ever shows a destruction intent and an active hold row together. */
  lemma NoHoldUnderIntent(cs: seq<Command>, d: DocumentId)
    requires AdmissibleAll(EMPTY_STORE, cs)
    requires d in PerformAll(EMPTY_STORE, cs).docs && PerformAll(EMPTY_STORE, cs).docs[d].purgeStartedAt.Some?
    ensures ActiveHolds(PerformAll(EMPTY_STORE, cs).holds, d) == {}
  {
    EmptyStoreIsSound();
    RunsKeepInvariants(EMPTY_STORE, cs);
    assert RowInv(PerformAll(EMPTY_STORE, cs), d);
  }

  // ---- from drifted stores ------------------------------------------------------

  /** An unstarted document with an active hold row, whatever its summary says. */
  ghost predicate HeldByRow(s: Store, d: DocumentId, h: HoldId) {
    && d in s.docs && s.docs[d].purgeStartedAt.None?
    && h in s.holds && s.holds[h].documentId == d && s.holds[h].status == Active
  }

  ghost predicate ReleasesRow(c: Command, d: DocumentId, h: HoldId) {
    c.DoRelease? && c.d == d && c.holdId == h
  }

  lemma TransitionsRespectRow(s: Store, c: Command, d: DocumentId, h: HoldId)
    requires HeldByRow(s, d, h) && Admissible(s, c) && !ReleasesRow(c, d, h)
    ensures var s' := Perform(s, c).store;
            && HeldByRow(s', d, h)
            && (s'.docs[d].purgeStatus == s.docs[d].purgeStatus || s'.docs[d].purgeStatus == NotEligible)
  {
    assert h in ActiveHolds(s.holds, d);
    match c
    case DoBeginPurge(e, at) => if e == d { HoldRowVetoesOnAnyStore(s, d, at, at); }
    case DoMarkEligible(e, at, now) => if e == d { HoldRowVetoesOnAnyStore(s, d, at, now); }
    case _ =>
  }

  /** From any store whatever - drifted summaries, legacy rows, seeded states - and over any
      history without a release of it: an active hold row alone keeps its document from being
      claimed for destruction, found eligible or marked purged. */
  lemma {:induction false} DriftedHoldsStillProtect(s: Store, cs: seq<Command>, d: DocumentId, h: HoldId)
    requires HeldByRow(s, d, h) && AdmissibleAll(s, cs)
    requires forall c :: c in cs ==> !ReleasesRow(c, d, h)
    ensures var s' := PerformAll(s, cs);
            && HeldByRow(s', d, h)
            && (s'.docs[d].purgeStatus == s.docs[d].purgeStatus || s'.docs[d].purgeStatus == NotEligible)
    decreases |cs|
  {
    if cs != [] {
      TransitionsRespectRow(s, cs[0], d, h);
      DriftedHoldsStillProtect(Perform(s, cs[0]).store, cs[1..], d, h);
    }
  }
}
