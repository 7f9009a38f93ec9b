/** Under every interleaving of statements, each transaction that commits is one atomic
    step of the repository contract on the committed store, and each one that answers
    without writing answers what that contract answers on a store committed meanwhile. */
module PostgresRefinement {
  import opened Records
  import opened Transitions
  import opened CustodyInvariants
  import opened Histories
  import opened Postgres

  // ---- equality up to the instant a row was last touched ------------------------

  ghost predicate SameRow(a: Store, b: Store, d: DocumentId) {
    d in a.docs && d in b.docs && Untouched(a.docs[d]) == Untouched(b.docs[d])
  }

  /** The two repositories differ on `updated_at` only. */
  ghost predicate SameStore(a: Store, b: Store) {
    && a.docs.Keys == b.docs.Keys && a.byRequest == b.byRequest && a.holds == b.holds
        && a.relationships == b.relationships
    && forall d {:trigger SameRow(a, b, d)} :: d in a.docs ==> SameRow(a, b, d)
  }

  ghost predicate SameDocument(a: Option<Document>, b: Option<Document>) {
    a.Some? == b.Some? && (a.Some? ==> Untouched(a.value) == Untouched(b.value))
  }

  ghost predicate SameReply(a: Reply, b: Reply) {
    match (a, b)
    case (DocumentReply(x), DocumentReply(y)) => SameDocument(x, y)
    case (ReleaseReply(x), ReleaseReply(y)) =>
      x.Some? == y.Some? && (x.Some? ==> x.value.0 == y.value.0 && Untouched(x.value.1) == Untouched(y.value.1))
    case (LinkReply(x), LinkReply(y)) =>
      && x.Ok? == y.Ok? && (x.Err? ==> x == y)
      && (x.Ok? ==> x.value.relationship == y.value.relationship
                    && Untouched(x.value.source) == Untouched(y.value.source)
                    && Untouched(x.value.target) == Untouched(y.value.target))
    case (SaveReply(x), SaveReply(y)) => x.Ok? == y.Ok? && (x.Ok? ==> Untouched(x.value) == Untouched(y.value))
        && (x.Err? ==> x == y)
    case _ => false
  }

  lemma SameStoreKeepsInv(a: Store, b: Store)
    requires StoreInv(a) && SameStore(a, b)
    ensures StoreInv(b)
  {
    forall d | d in b.docs ensures RowInv(b, d) && SamePointers(a.docs[d], b.docs[d]) {
      assert RowInv(a, d) && SameRow(a, b, d);
    }
    forall r | r in b.byRequest ensures RequestInv(b, r) { assert RequestInv(a, r) && SameRow(a, b, a.byRequest[r]); }
    SameGraphKeepsGraph(a, b);
  }

  lemma SameStoreEvolves(s: Store, a: Store, b: Store)
    requires StoreEvolves(s, a) && SameStore(a, b)
    ensures StoreEvolves(s, b)
  {
    forall d | d in s.docs ensures DocumentEvolves(s, b, d) { assert DocumentEvolves(s, a, d) && SameRow(a, b, d); }
    forall h | h in s.holds ensures HoldRowEvolves(s, b, h) { assert HoldRowEvolves(s, a, h); }
  }

  // ---- what a transaction that holds its locks is about to commit ----------------

  /** The guards that still hold on the committed row while its lock is held. */
  ghost predicate Ready(s: Store, c: Command) {
    match c
    case DoBeginPurge(d, _) => d in s.docs && s.docs[d].purgeStartedAt.None? && s.docs[d].holdStatus == Clear
    case DoMarkEligible(d, _, _) =>
      d in s.docs && s.docs[d].purgeStartedAt.None? && s.docs[d].purgeStatus != Purged && s.docs[d].holdStatus == Clear
    case DoMarkNotEligible(d, _) => d in s.docs && s.docs[d].purgeStartedAt.None? && s.docs[d].purgeStatus != Purged
    case DoComplete(d, _, _) => d in s.docs && s.docs[d].purgeStartedAt.Some?
    case DoAdmit(d, _, _, _) => d in s.docs && s.docs[d].purgeStartedAt.None?
    case DoRefresh(d, _) => d in s.docs
    case DoRelease(d, id, _, _) => d in s.docs && id in s.holds && s.holds[id].documentId == d
    case DoApply(f, t, k, r, _) => f in s.docs && t in s.docs && f != t && LifecycleRefusal(s.docs[f], s.docs[t]).None?
    case DoSave(_) => false
  }

  /** The writes of a transaction that is ready, from the locked rows alone. */
  ghost function Writes(s: Store, c: Command): Pending
    requires Ready(s, c)
  {
    match c
    case DoAdmit(d, id, hold, now) =>
      var holds := s.holds[id := hold];
      var row := s.docs[d].(holdStatus := Active, holdCount := |ActiveHolds(holds, d)|, updatedAt := now);
      Pending(map[d := row], map[id := hold], [])
    case DoRefresh(d, now) =>
      var row := Recount(s, d, now);
      Pending(if row.Some? then map[d := row.value] else map[], map[], [])
    case DoRelease(d, id, release, now) =>
      var hold := Released(s.holds[id], release);
      var row := Recount(s.(holds := s.holds[id := hold]), d, now);
      Pending(if row.Some? then map[d := row.value] else map[],
              if s.holds[id].status == Active then map[id := hold] else map[], [])
    case DoApply(f, t, k, r, now) =>
      var from := s.docs[f].(supersededBy := Some(t), updatedAt := now);
      var to := WithOrigin(s.docs[t], k, f).(updatedAt := now);
      Pending(map[f := from][t := to], map[], [r])
    case DoSave(_) => NOTHING
    case _ => Pending(map[c.d := Updated(c, s.docs[c.d])], map[], [])
  }

  ghost function Reported(s: Store, c: Command): Reply
    requires Ready(s, c)
  {
    var p := Writes(s, c);
    match c
    case DoRelease(d, id, release, _) =>
      ReleaseReply(Some((Released(s.holds[id], release), if d in p.docs then p.docs[d] else s.docs[d])))
    case DoApply(f, t, _, r, _) => LinkReply(Ok(Linked(r, p.docs[f], p.docs[t])))
    case DoSave(_) => Refusal(c)
    case _ => DocumentReply(Some(if c.d in p.docs then p.docs[c.d] else s.docs[c.d]))
  }

  lemma OneRowSame(a: Store, b: Store, d: DocumentId)
    requires d in a.docs && d in b.docs && b.docs == a.docs[d := b.docs[d]]
        && Untouched(a.docs[d]) == Untouched(b.docs[d])
    requires a.byRequest == b.byRequest && a.holds == b.holds && a.relationships == b.relationships
    ensures SameStore(a, b)
  {
  }

  lemma SinglePerforms(s: Store, c: Command)
    requires RowsInv(s) && SingleStatement(c) && Ready(s, c)
    ensures var a := Perform(s, c);
            && c.d in a.store.docs && a.store == s.(docs := s.docs[c.d := a.store.docs[c.d]])
            && a.value == DocumentReply(Some(a.store.docs[c.d]))
            && Untouched(a.store.docs[c.d]) == Untouched(Updated(c, s.docs[c.d]))
  {
    assert RowInv(s, c.d);
    assert s.docs[c.d].holdStatus == Clear ==> |ActiveHolds(s.holds, c.d)| == 0;
    assert s.docs[c.d := s.docs[c.d]] == s.docs;
  }

  lemma SingleCommits(s: Store, c: Command)
    requires RowsInv(s) && SingleStatement(c) && Ready(s, c)
    ensures SameStore(Perform(s, c).store, Overlay(s, Writes(s, c)))
    ensures SameReply(Perform(s, c).value, Reported(s, c))
  {
    assert s.docs + Writes(s, c).docs == s.docs[c.d := Updated(c, s.docs[c.d])];
    SinglePerforms(s, c);
    OneRowSame(Perform(s, c).store, Overlay(s, Writes(s, c)), c.d);
  }

  lemma HoldCommits(s: Store, c: Command)
    requires RowsInv(s) && (c.DoAdmit? || c.DoRefresh?) && Ready(s, c)
    ensures Perform(s, c).store == Overlay(s, Writes(s, c))
    ensures SameReply(Perform(s, c).value, Reported(s, c))
  {
    if c.DoRefresh? { RecountRefreshes(s, c.d, c.now); }
    assert s.docs + Writes(s, c).docs == Perform(s, c).store.docs;
    assert s.holds + Writes(s, c).holds == Perform(s, c).store.holds;
  }

  /** Committing those writes is the atomic transition. */
  lemma CommitIsAtomic(s: Store, c: Command)
    requires RowsInv(s) && Ready(s, c) && WellFormed(c)
    ensures SameStore(Perform(s, c).store, Overlay(s, Writes(s, c)))
    ensures SameReply(Perform(s, c).value, Reported(s, c))
  {
    match c
    case DoApply(_, _, _, _, _) => ApplyCommits(s, c);
    case DoRelease(_, _, _, _) => ReleaseCommits(s, c);
    case DoAdmit(_, _, _, _) => HoldCommits(s, c);
    case DoRefresh(_, _) => HoldCommits(s, c);
    case _ => SingleCommits(s, c);
  }

  lemma ApplyCommits(s: Store, c: Command)
    requires RowsInv(s) && c.DoApply? && Ready(s, c) && WellFormed(c)
    ensures Perform(s, c).store == Overlay(s, Writes(s, c))
    ensures SameReply(Perform(s, c).value, Reported(s, c))
  {
    assert RowInv(s, c.source) && RowInv(s, c.target);
    assert s.docs + Writes(s, c).docs == Perform(s, c).store.docs;
  }

  lemma ReleaseCommits(s: Store, c: Command)
    requires RowsInv(s) && c.DoRelease? && Ready(s, c)
    ensures Perform(s, c).store == Overlay(s, Writes(s, c))
    ensures SameReply(Perform(s, c).value, Reported(s, c))
  {
    var hold := Released(s.holds[c.holdId], c.release);
    var s1 := s.(holds := s.holds[c.holdId := hold]);
    assert s.holds + Writes(s, c).holds == s1.holds;
    RecountRefreshes(s1, c.d, c.now);
    assert s.docs + Writes(s, c).docs == RefreshSummary(s1, c.d, c.now).store.docs;
  }

  /** The recount statement writes what the atomic refresh writes. */
  lemma RecountRefreshes(s: Store, d: DocumentId, now: Instant)
    requires d in s.docs
    ensures RefreshSummary(s, d, now)
            == match Recount(s, d, now)
               case None => Answer(s, Some(s.docs[d]))
               case Some(row) => Answer(s.(docs := s.docs[d := row]), Some(row))
  {
  }

  /** Where PostgreSQL rewrites a row the in-memory repository leaves alone. */
  ghost predicate Rewrites(s: Store, c: Command)
    requires Ready(s, c)
  {
    || (c.DoMarkNotEligible? && s.docs[c.d].purgeStatus == NotEligible)
    || (c.DoComplete? && s.docs[c.d].purgeStatus == Purged)
  }

  ghost function Freshened(s: Store, c: Command): Store
    requires Ready(s, c)
  {
    if Rewrites(s, c) then s.(docs := s.docs[c.d := s.docs[c.d].(updatedAt := c.now)]) else s
  }

  /** A commit is exactly the atomic transition, to the last column, once the row it rewrites
      in vain has been saved again as it was. */
  lemma CommitIsExact(s: Store, c: Command)
    requires RowsInv(s) && Ready(s, c) && WellFormed(c)
    ensures Perform(Freshened(s, c), c) == Answer(Overlay(s, Writes(s, c)), Reported(s, c))
  {
    match c
    case DoApply(_, _, _, _, _) =>
      ApplyCommits(s, c);
      ApplyReports(s, c);
    case DoRelease(_, _, _, _) => ReleaseCommits(s, c);
    case DoAdmit(_, _, _, _) => HoldCommits(s, c);
    case DoRefresh(_, _) =>
      HoldCommits(s, c);
      RecountRefreshes(s, c.d, c.now);
    case DoSave(_) =>
    case _ => SingleCommitsExactly(s, c);
  }

  lemma ApplyReports(s: Store, c: Command)
    requires RowsInv(s) && c.DoApply? && Ready(s, c) && WellFormed(c)
    ensures Perform(s, c).value == Reported(s, c)
  {
    assert RowInv(s, c.source) && RowInv(s, c.target);
  }

  lemma SingleCommitsExactly(s: Store, c: Command)
    requires RowsInv(s) && SingleStatement(c) && Ready(s, c)
    ensures Perform(Freshened(s, c), c) == Answer(Overlay(s, Writes(s, c)), Reported(s, c))
  {
    assert RowInv(s, c.d);
    assert s.docs[c.d].holdStatus == Clear ==> |ActiveHolds(s.holds, c.d)| == 0;
    assert s.docs + Writes(s, c).docs == s.docs[c.d := Updated(c, s.docs[c.d])];
  }

  // ---- what holds of every transaction ------------------------------------------

  /** The command would change nothing here and answer `reply`. */
  ghost predicate Answers(s: Store, c: Command, reply: Reply) {
    Perform(s, c) == Answer(s, reply)
  }

  ghost predicate Belted(c: Command) {
    c.DoBeginPurge? || c.DoMarkEligible?
  }

  ghost predicate Empty(x: Txn) {
    x.pending == NOTHING
  }

  ghost predicate TxnInv(s: Store, x: Txn) {
    var c := x.command;
    WellFormed(c)
    && match x.phase
       case Begun => Empty(x)
       case Targeting(snapshot, second) =>
         Empty(x) && FirstRow(c) in s.docs && (Belted(c) ==> ActiveHolds(snapshot.holds, c.d) == {})
         && (second ==> c.DoApply? && c.source != c.target && SecondRow(c) in s.docs)
       case LockedOne => Empty(x) && c.DoApply? && c.source != c.target && FirstRow(c) in s.docs
       case Rechecking(at) =>
         Empty(x) && c.DoBeginPurge? && RowsInv(at) && StoreEvolves(at, s)
         && (c.d in at.docs && at.docs[c.d].purgeStartedAt.None? ==> Answers(at, c, DocumentReply(None)))
       case Locked =>
         && !SingleStatement(c) && Rows(c) <= s.docs.Keys
         && (c.DoAdmit? ==> s.docs[c.d].purgeStartedAt.None?
                            && x.pending == NOTHING.(docs := map[c.d := Updated(c, s.docs[c.d])]))
         && (!c.DoAdmit? ==> Empty(x))
       case Inserted =>
         && (c.DoAdmit? || c.DoRelease?) && Ready(s, c)
         && (c.DoAdmit? ==> x.pending == Pending(map[c.d := Updated(c, s.docs[c.d])], map[c.holdId := c.hold], []))
         && (c.DoRelease? ==> x.pending == NOTHING.(holds := Writes(s, c).holds))
       case Written(reply) => Ready(s, c) && x.pending == Writes(s, c) && reply == Reported(s, c)
       case Ended(reply, at) => Empty(x) && RowsInv(at) && SameReply(Perform(at, c).value, reply)
       case Aborted => Empty(x)
  }

  /** Rows and hold rows of `d` are as they were. */
  ghost predicate Footprint(s: Store, s': Store, d: DocumentId) {
    && d in s.docs && d in s'.docs && s'.docs[d] == s.docs[d]
    && (forall h :: h in s.holds && s.holds[h].documentId == d ==> h in s'.holds && s'.holds[h] == s.holds[h])
    && (forall h :: h in s'.holds && s'.holds[h].documentId == d ==> h in s.holds && s'.holds[h] == s.holds[h])
  }

  lemma FootprintHolds(s: Store, s': Store, d: DocumentId)
    requires Footprint(s, s', d)
    ensures ActiveHolds(s'.holds, d) == ActiveHolds(s.holds, d)
  {
  }

  ghost predicate Untampered(s: Store, s': Store, x: Txn) {
    !x.command.DoSave? && forall d {:trigger Footprint(s, s', d)} :: d in LockSet(x) ==> Footprint(s, s', d)
  }

  lemma WritesStable(s: Store, s': Store, c: Command)
    requires Ready(s, c) && !c.DoSave? && forall d :: d in Rows(c) ==> Footprint(s, s', d)
    ensures Ready(s', c) && Writes(s', c) == Writes(s, c) && Reported(s', c) == Reported(s, c)
  {
    match c
    case DoAdmit(d, id, hold, _) => AdmitStable(s, s', d, id, hold);
    case DoRelease(d, id, release, _) => ReleaseStable(s, s', d, id, release);
    case DoRefresh(d, _) => assert Footprint(s, s', d); FootprintHolds(s, s', d);
    case DoApply(f, t, _, _, _) => assert Footprint(s, s', f) && Footprint(s, s', t);
    case DoSave(_) =>
    case _ => assert Footprint(s, s', c.d);
  }

  lemma AdmitStable(s: Store, s': Store, d: DocumentId, id: HoldId, hold: Hold)
    requires Footprint(s, s', d)
    ensures ActiveHolds(s'.holds[id := hold], d) == ActiveHolds(s.holds[id := hold], d)
  {
  }

  lemma ReleaseStable(s: Store, s': Store, d: DocumentId, id: HoldId, release: Release)
    requires Footprint(s, s', d) && id in s.holds && s.holds[id].documentId == d
    ensures id in s'.holds && s'.holds[id] == s.holds[id]
    ensures ActiveHolds(s'.holds[id := Released(s.holds[id], release)], d)
        == ActiveHolds(s.holds[id := Released(s.holds[id], release)], d)
  {
  }

  /** What holds of a transaction survives whatever others commit. */
  lemma TxnStable(s: Store, s': Store, x: Txn)
    requires TxnInv(s, x) && StoreEvolves(s, s') && Untampered(s, s', x)
    ensures TxnInv(s', x)
  {
    forall d | d in s.docs ensures d in s'.docs { assert DocumentEvolves(s, s', d); }
    match x.phase
    case Rechecking(at) => EvolutionComposes(at, s, s');
    case Locked => forall d | d in Rows(x.command) ensures Footprint(s, s', d) { assert d in LockSet(x); }
    case Inserted =>
      assert x.command.d in LockSet(x) && Footprint(s, s', x.command.d);
      WritesStable(s, s', x.command);
    case Written(_) => WritesStable(s, s', x.command);
    case _ =>
  }

  // ---- one statement at a time --------------------------------------------------

  lemma SameStoreIsItself(s: Store)
    ensures SameStore(s, s)
  {
  }

  lemma OverlayNothing(s: Store)
    ensures Overlay(s, NOTHING) == s
  {
    assert s.docs + map[] == s.docs && s.holds + map[] == s.holds && s.relationships + [] == s.relationships;
  }

  /** Where the locking statement matches no row, the atomic transition refuses too. */
  lemma RefusedAnswers(s: Store, c: Command)
    requires RowsInv(s) && !c.DoSave?
    requires FirstRow(c) !in s.docs || !Where(c, s.docs[FirstRow(c)], s.holds)
    requires c.DoBeginPurge? && c.d in s.docs ==> s.docs[c.d].purgeStartedAt.None?
    ensures Answers(s, c, Refusal(c))
  {
    SameStoreIsItself(s);
    if FirstRow(c) in s.docs && Belted(c) {
      assert ActiveHolds(s.holds, c.d) != {} ==> |ActiveHolds(s.holds, c.d)| != 0;
    }
  }

  lemma NoRowStep(s: Store, x: Txn)
    requires StoreInv(s) && WellFormed(x.command) && Empty(x)
    requires FirstRow(x.command) !in s.docs || !Where(x.command, s.docs[FirstRow(x.command)], s.holds)
    ensures TxnInv(s, NoRow(x, s))
    ensures NoRow(x, s).phase.Ended? ==> Answers(s, x.command, NoRow(x, s).phase.reply)
  {
    var c := x.command;
    if c.DoBeginPurge? {
      StoreIsItself(s);
      if c.d in s.docs && s.docs[c.d].purgeStartedAt.None? { RefusedAnswers(s, c); }
    } else {
      RefusedAnswers(s, c);
    }
  }

  /** A lock granted over an arbitrarily old snapshot: the summary column, re-checked on the
      current row, is what keeps a destruction intent away from an active hold. */
  lemma GrantStep(s: Store, x: Txn, snapshot: Store, second: bool)
    requires StoreInv(s) && TxnInv(s, x) && x.phase == Targeting(snapshot, second)
    ensures TxnInv(s, Granted(x, s, snapshot, second))
    ensures var x' := Granted(x, s, snapshot, second); x'.phase.Ended? ==> Answers(s, x.command, x'.phase.reply)
  {
    var c := x.command;
    var d := if second then SecondRow(c) else FirstRow(c);
    if !Where(c, s.docs[d], snapshot.holds) {
      assert !c.DoApply?;
      NoRowStep(s, x);
    }
  }

  lemma SecondMissing(s: Store, x: Txn)
    requires StoreInv(s) && TxnInv(s, x) && x.phase.LockedOne? && SecondRow(x.command) !in s.docs
    ensures TxnInv(s, NoRow(x, s)) && Answers(s, x.command, NoRow(x, s).phase.reply)
  {
    SameStoreIsItself(s);
  }

  lemma RecheckStep(s: Store, x: Txn, at: Store)
    requires StoreInv(s) && TxnInv(s, x) && x.phase == Rechecking(at)
    ensures var d := x.command.d;
            if d in s.docs && s.docs[d].purgeStartedAt.Some? then Answers(s, x.command, DocumentReply(Some(s.docs[d])))
            else Answers(at, x.command, DocumentReply(None))
  {
    SameStoreIsItself(s);
    SameStoreIsItself(at);
    if x.command.d in at.docs { assert DocumentEvolves(at, s, x.command.d); }
  }

  /** From a sound committed state a second relationship row for the same source or target
      is never attempted. */
  lemma NoUniqueViolation(s: Store, r: Relationship)
    requires GraphInv(s) && r.source in s.docs && r.target in s.docs
    requires s.docs[r.source].supersededBy.None? && ExistingOrigin(s.docs[r.target]).None?
    ensures !UniqueViolation(s.relationships, r)
  {
    forall i | 0 <= i < |s.relationships|
      ensures s.relationships[i].source != r.source && s.relationships[i].target != r.target
    {
      assert Describes(s, s.relationships[i]);
    }
  }

  lemma ApplyStep(s: Store, x: Txn)
    requires StoreInv(s) && TxnInv(s, x) && x.phase.Locked? && x.command.DoApply?
    ensures var x' := ApplyLocked(x, s);
            TxnInv(s, x') && (x'.phase.Ended? ==> Answers(s, x.command, x'.phase.reply)) && !x'.phase.Aborted?
  {
    var c := x.command;
    SameStoreIsItself(s);
    assert RowInv(s, c.source) && RowInv(s, c.target);
    if LifecycleRefusal(s.docs[c.source], s.docs[c.target]).None? { NoUniqueViolation(s, c.relationship); }
  }

  lemma RefreshStep(s: Store, x: Txn)
    requires StoreInv(s) && TxnInv(s, x) && x.phase.Locked? && x.command.DoRefresh?
    ensures TxnInv(s, AfterLock(x, s)) && AfterLock(x, s).phase.Written?
  {
  }

  lemma ReleaseStep(s: Store, x: Txn)
    requires StoreInv(s) && TxnInv(s, x) && x.phase.Locked? && x.command.DoRelease?
    ensures var x' := AfterLock(x, s);
            TxnInv(s, x') && (x'.phase.Ended? ==> Answers(s, x.command, x'.phase.reply))
  {
    SameStoreIsItself(s);
  }

  lemma LockedStep(s: Store, x: Txn)
    requires StoreInv(s) && TxnInv(s, x) && x.phase.Locked? && Rows(x.command) <= Overlay(s, x.pending).docs.Keys
    ensures var x' := AfterLock(x, Overlay(s, x.pending));
            TxnInv(s, x') && (x'.phase.Ended? ==> Answers(s, x.command, x'.phase.reply))
  {
    OverlayNothing(s);
    match x.command
    case DoApply(_, _, _, _, _) => ApplyStep(s, x);
    case DoRefresh(_, _) => RefreshStep(s, x);
    case DoRelease(_, _, _, _) => ReleaseStep(s, x);
    case _ =>
  }

  lemma AdmitCountStep(s: Store, x: Txn)
    requires TxnInv(s, x) && x.phase.Inserted? && x.command.DoAdmit? && x.command.d in Overlay(s, x.pending).docs
    ensures TxnInv(s, AfterInsert(x, Overlay(s, x.pending))) && AfterInsert(x, Overlay(s, x.pending)).phase.Written?
  {
    var c := x.command;
    var view := Overlay(s, x.pending);
    assert view.holds == s.holds[c.holdId := c.hold];
    var x' := AfterInsert(x, view);
    assert x'.pending.docs == Writes(s, c).docs;
  }

  lemma ReleaseCountStep(s: Store, x: Txn)
    requires TxnInv(s, x) && x.phase.Inserted? && x.command.DoRelease? && x.command.d in Overlay(s, x.pending).docs
    requires x.command.holdId in Overlay(s, x.pending).holds
    ensures TxnInv(s, AfterInsert(x, Overlay(s, x.pending))) && AfterInsert(x, Overlay(s, x.pending)).phase.Written?
  {
    var c := x.command;
    var view := Overlay(s, x.pending);
    assert view.holds == s.holds[c.holdId := Released(s.holds[c.holdId], c.release)];
    assert view == s.(holds := view.holds) by { assert view.docs == s.docs && view.relationships == s.relationships; }
    var x' := AfterInsert(x, view);
    assert x'.pending == Writes(s, c);
  }

  lemma InsertedStep(s: Store, x: Txn)
    requires TxnInv(s, x) && x.phase.Inserted?
    requires Rows(x.command) <= Overlay(s, x.pending).docs.Keys
    requires x.command.DoRelease? ==> x.command.holdId in Overlay(s, x.pending).holds
    ensures TxnInv(s, AfterInsert(x, Overlay(s, x.pending))) && AfterInsert(x, Overlay(s, x.pending)).phase.Written?
  {
    if x.command.DoAdmit? { AdmitCountStep(s, x); } else { ReleaseCountStep(s, x); }
  }
}
