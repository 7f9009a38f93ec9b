/** Whole runs of concurrent PostgreSQL transactions: the committed states they pass
    through, and the atomic run they refine. */
module PostgresRuns {
  import opened Records
  import opened Transitions
  import opened CustodyInvariants
  import opened Histories
  import opened Supersession
  import opened Postgres
  import opened PostgresRefinement
  import opened PostgresSaves

  ghost predicate TxnOk(db: Db, t: nat) {
    t in db.txns && KnownAt(db.committed, db.txns[t])
  }

  ghost predicate Exclusive(db: Db, a: nat, b: nat) {
    && a in db.txns && b in db.txns
    && !db.txns[a].command.DoSave? && !db.txns[b].command.DoSave?
    && LockSet(db.txns[a]) !! LockSet(db.txns[b])
    && MintedBy(db.txns[a].command) !! MintedBy(db.txns[b].command)
  }

  ghost predicate DbInv(db: Db) {
    && StoreInv(db.committed)
    && (forall t {:trigger TxnOk(db, t)} :: t in db.txns ==> TxnOk(db, t))
    && (forall a, b {:trigger Exclusive(db, a, b)} :: a in db.txns && b in db.txns && a != b ==> Exclusive(db, a, b))
    && SavesInv(db.committed, db.saves)
  }

  datatype Call = Call(command: Command, reply: Reply)

  /** The repository call a step commits, and what its caller is told. */
  ghost function Committing(db: Db, l: DbLabel): Option<Call> {
    match l
    case Commit(t) =>
      if t in db.txns && db.txns[t].phase.Written? then Some(Call(db.txns[t].command, db.txns[t].phase.reply)) else None
    case CommitSave(t) =>
      if t in db.saves then Some(Call(DoSave(db.saves[t].document), SaveReply(Ok(db.saves[t].document)))) else None
    case _ => None
  }

  /** What the committed store does at this step, against the atomic contract. */
  ghost predicate Refines(db: Db, l: DbLabel, db': Db) {
    match Committing(db, l)
    case None => db'.committed == db.committed
    case Some(call) =>
      && Admissible(db.committed, call.command)
      && SameStore(Perform(db.committed, call.command).store, db'.committed)
      && SameReply(Perform(db.committed, call.command).value, call.reply)
  }

  lemma BeginKeeps(db: Db, t: nat, c: Command, db': Db)
    requires DbInv(db) && DbNext(db, BeginTxn(t, c), db')
    ensures DbInv(db')
  {
    forall u | u in db'.txns ensures TxnOk(db', u) { if u != t { assert TxnOk(db, u); } }
    forall a, b | a in db'.txns && b in db'.txns && a != b ensures Exclusive(db', a, b) {
      if a != t && b != t { assert Exclusive(db, a, b); }
      else { assert TxnOk(db, if a == t then b else a); }
    }
  }

  /** What a transaction knows after its next statement, and what it answers if it ends. */
  lemma StatementKnows(db: Db, t: nat, x': Txn)
    requires StoreInv(db.committed) && t in db.txns && TxnInv(db.committed, db.txns[t]) && Advances(db, t, x')
    ensures TxnInv(db.committed, x') && x'.command == db.txns[t].command
    ensures x'.phase.Ended? ==> Answers(x'.phase.at, x'.command, x'.phase.reply)
  {
    var x, s := db.txns[t], db.committed;
    match x.phase
    case Begun => if !x'.phase.Targeting? { NoRowStep(s, x); }
    case Targeting(snapshot, second) => GrantStep(s, x, snapshot, second);
    case LockedOne => if !x'.phase.Targeting? { SecondMissing(s, x); }
    case Rechecking(at) => RecheckStep(s, x, at);
    case Locked => LockedKnows(s, x);
    case Inserted => InsertedStep(s, x);
    case _ =>
  }

  lemma AfterLockRemembers(x: Txn, view: Store)
    requires !x.command.DoSave? && x.phase.Locked? && Rows(x.command) <= view.docs.Keys && !SingleStatement(x.command)
    ensures AfterLock(x, view).phase.Ended? ==> AfterLock(x, view).phase.at == view && !x.command.DoAdmit?
  {
  }

  lemma LockedKnows(s: Store, x: Txn)
    requires StoreInv(s) && TxnInv(s, x) && x.phase.Locked? && Rows(x.command) <= Overlay(s, x.pending).docs.Keys
    ensures var x' := AfterLock(x, Overlay(s, x.pending));
            && TxnInv(s, x') && x'.command == x.command
            && (x'.phase.Ended? ==> Answers(x'.phase.at, x'.command, x'.phase.reply))
  {
    var view := Overlay(s, x.pending);
    LockedStep(s, x);
    AfterLockKeepsLocks(x, view);
    AfterLockRemembers(x, view);
    assert AfterLock(x, view).phase.Ended? ==> view == s by { OverlayNothing(s); }
  }

  /** The one lock a statement can take was free. */
  lemma StatementLocks(db: Db, t: nat, x': Txn, u: nat)
    requires t in db.txns && u in db.txns && u != t && Exclusive(db, t, u)
    requires TxnInv(db.committed, db.txns[t]) && Advances(db, t, x')
    ensures x'.command == db.txns[t].command && LockSet(x') !! LockSet(db.txns[u])
  {
    var x, s := db.txns[t], db.committed;
    match x.phase
    case Targeting(snapshot, second) =>
      GrantTakes(x, s, snapshot, second);
      assert (if second then SecondRow(x.command) else FirstRow(x.command)) !in LockSet(db.txns[u]);
    case Locked => AfterLockKeepsLocks(x, Overlay(s, x.pending));
    case _ =>
  }

  lemma GrantTakes(x: Txn, s: Store, snapshot: Store, second: bool)
    requires !x.command.DoSave? && x.phase == Targeting(snapshot, second) && (second ==> x.command.DoApply?)
    ensures Granted(x, s, snapshot, second).command == x.command
    ensures LockSet(Granted(x, s, snapshot, second))
            <= LockSet(x) + {if second then SecondRow(x.command) else FirstRow(x.command)}
  {
  }

  lemma AfterLockKeepsLocks(x: Txn, view: Store)
    requires !x.command.DoSave? && x.phase.Locked? && Rows(x.command) <= view.docs.Keys && !SingleStatement(x.command)
    ensures LockSet(AfterLock(x, view)) <= LockSet(x) && !AfterLock(x, view).phase.Rechecking?
    ensures AfterLock(x, view).command == x.command
  {
  }

  /** One pair of transactions across a statement of `t`. */
  lemma StatementKeepsPair(db: Db, t: nat, db': Db, a: nat, b: nat)
    requires t in db.txns && TxnInv(db.committed, db.txns[t])
    requires t in db'.txns && db' == db.(txns := db.txns[t := db'.txns[t]])
    requires Advances(db, t, db'.txns[t]) && Exclusive(db, a, b) && Exclusive(db, b, a) && a != b
    ensures Exclusive(db', a, b)
  {
    if a == t { StatementLocks(db, t, db'.txns[t], b); }
    if b == t { StatementLocks(db, t, db'.txns[t], a); }
  }

  lemma StatementKeepsTxn(db: Db, t: nat, db': Db)
    requires StoreInv(db.committed) && TxnOk(db, t) && DbNext(db, Statement(t), db')
    ensures TxnOk(db', t)
  {
    StatementKnows(db, t, db'.txns[t]);
  }

  lemma StatementStepKeeps(db: Db, t: nat, db': Db)
    requires DbInv(db) && DbNext(db, Statement(t), db')
    ensures DbInv(db')
  {
    assert TxnOk(db, t);
    StatementKeepsTxn(db, t, db');
    forall u | u in db'.txns ensures TxnOk(db', u) { if u != t { assert TxnOk(db, u); } }
    forall a, b | a in db'.txns && b in db'.txns && a != b ensures Exclusive(db', a, b) {
      assert Exclusive(db, a, b) && Exclusive(db, b, a);
      StatementKeepsPair(db, t, db', a, b);
    }
  }

  /** Locked rows exist. */
  lemma LockedExist(s: Store, x: Txn)
    requires TxnInv(s, x)
    ensures LockSet(x) <= s.docs.Keys
  {
  }

  lemma CommitFootprint(s: Store, c: Command, d: DocumentId)
    requires Ready(s, c) && WellFormed(c) && Admissible(s, c) && d in s.docs && d !in Rows(c)
    ensures Footprint(s, Overlay(s, Writes(s, c)), d)
  {
  }

  lemma CommitFresh(s: Store, c: Command, other: Command)
    requires Ready(s, c) && WellFormed(c) && WellFormed(other) && Admissible(s, other) && MintedBy(c) !! MintedBy(other)
    ensures Admissible(Overlay(s, Writes(s, c)), other)
  {
    assert forall r :: r in Overlay(s, Writes(s, c)).relationships ==> r in s.relationships
                                                                       || (c.DoApply? && r == c.relationship);
  }

  lemma CommitStore(s: Store, x: Txn)
    requires StoreInv(s) && TxnInv(s, x) && x.phase.Written? && Admissible(s, x.command)
    ensures var s' := Overlay(s, x.pending);
            && StoreInv(s') && StoreEvolves(s, s') && SameStore(Perform(s, x.command).store, s')
            && SameReply(Perform(s, x.command).value, x.phase.reply)
  {
    var c := x.command;
    CommitIsAtomic(s, c);
    TransitionsKeepInvariants(s, c);
    TransitionsOnlyAccumulate(s, c);
    SameStoreKeepsInv(Perform(s, c).store, Overlay(s, x.pending));
    SameStoreEvolves(s, Perform(s, c).store, Overlay(s, x.pending));
  }

  /** Another transaction's commit leaves what this one knows about its rows in force. */
  lemma OtherSurvivesCommit(s: Store, x: Txn, other: Txn)
    requires TxnInv(s, x) && x.phase.Written? && Admissible(s, x.command)
    requires TxnInv(s, other) && LockSet(x) !! LockSet(other) && StoreEvolves(s, Overlay(s, x.pending))
    ensures TxnInv(Overlay(s, x.pending), other)
  {
    LockedExist(s, other);
    forall d | d in LockSet(other) ensures Footprint(s, Overlay(s, x.pending), d) { CommitFootprint(s, x.command, d); }
    TxnStable(s, Overlay(s, x.pending), other);
  }

  lemma CommitOther(db: Db, t: nat, u: nat)
    requires TxnOk(db, t) && db.txns[t].phase.Written? && TxnOk(db, u) && Exclusive(db, t, u)
    requires StoreEvolves(db.committed, Overlay(db.committed, db.txns[t].pending))
    ensures var s' := Overlay(db.committed, db.txns[t].pending);
            TxnInv(s', db.txns[u]) && (!Finished(db.txns[u]) ==> Admissible(s', db.txns[u].command))
  {
    OtherSurvivesCommit(db.committed, db.txns[t], db.txns[u]);
    if !Finished(db.txns[u]) { CommitFresh(db.committed, db.txns[t].command, db.txns[u].command); }
  }

  ghost predicate KnownAt(s: Store, x: Txn) {
    TxnInv(s, x) && (!Finished(x) ==> Admissible(s, x.command))
  }

  lemma CommitOwn(s: Store, x: Txn)
    requires StoreInv(s) && TxnInv(s, x) && x.phase.Written?
    requires SameReply(Perform(s, x.command).value, x.phase.reply)
    ensures KnownAt(Overlay(s, x.pending), Txn(x.command, Ended(x.phase.reply, s), NOTHING))
  {
  }

  lemma CommitLocks(db: Db, t: nat, db': Db, a: nat, b: nat)
    requires DbNext(db, Commit(t), db') && Exclusive(db, a, b)
    ensures Exclusive(db', a, b)
  {
  }

  lemma CommitKeepsDocuments(s: Store, x: Txn)
    requires TxnInv(s, x) && x.phase.Written?
    ensures SameDocuments(s, Overlay(s, x.pending))
  {
  }

  lemma CommitRefines(db: Db, t: nat, db': Db)
    requires DbInv(db) && DbNext(db, Commit(t), db')
    ensures Refines(db, Commit(t), db') && StoreInv(db'.committed) && StoreEvolves(db.committed, db'.committed)
    ensures SameDocuments(db.committed, db'.committed)
  {
    assert TxnOk(db, t);
    CommitStore(db.committed, db.txns[t]);
    CommitKeepsDocuments(db.committed, db.txns[t]);
  }

  lemma CommittedTxn(db: Db, t: nat, db': Db)
    requires StoreInv(db.committed) && TxnOk(db, t) && DbNext(db, Commit(t), db')
    requires SameReply(Perform(db.committed, db.txns[t].command).value, db.txns[t].phase.reply)
    ensures TxnOk(db', t)
  {
    CommitOwn(db.committed, db.txns[t]);
  }

  lemma OtherTxn(db: Db, t: nat, db': Db, u: nat)
    requires TxnOk(db, t) && TxnOk(db, u) && Exclusive(db, t, u) && u != t && DbNext(db, Commit(t), db')
    requires StoreEvolves(db.committed, db'.committed)
    ensures TxnOk(db', u)
  {
    CommitOther(db, t, u);
  }

  lemma CommitKeepsTxns(db: Db, t: nat, db': Db)
    requires DbInv(db) && DbNext(db, Commit(t), db') && StoreEvolves(db.committed, db'.committed)
    requires SameReply(Perform(db.committed, db.txns[t].command).value, db.txns[t].phase.reply)
    ensures forall u {:trigger TxnOk(db', u)} :: u in db'.txns ==> TxnOk(db', u)
  {
    assert TxnOk(db, t);
    CommittedTxn(db, t, db');
    forall u | u in db'.txns ensures TxnOk(db', u) {
      if u != t {
        assert TxnOk(db, u) && Exclusive(db, t, u);
        OtherTxn(db, t, db', u);
      }
    }
  }

  lemma CommitKeepsLocks(db: Db, t: nat, db': Db)
    requires DbInv(db) && DbNext(db, Commit(t), db')
    ensures forall a, b {:trigger Exclusive(db', a, b)} :: a in db'.txns && b in db'.txns && a != b ==>
              Exclusive(db', a, b)
  {
    forall a, b | a in db'.txns && b in db'.txns && a != b ensures Exclusive(db', a, b) {
      assert Exclusive(db, a, b);
      CommitLocks(db, t, db', a, b);
    }
  }

  lemma CommitKeeps(db: Db, t: nat, db': Db)
    requires DbInv(db) && DbNext(db, Commit(t), db')
    ensures DbInv(db') && Refines(db, Commit(t), db') && StoreEvolves(db.committed, db'.committed)
  {
    CommitRefines(db, t, db');
    CommitKeepsTxns(db, t, db');
    CommitKeepsLocks(db, t, db');
    SavesSurvive(db.committed, db'.committed, db.saves);
  }

  lemma SaveLeaves(s: Store, document: Document, x: Txn)
    requires KnownAt(s, x) && document.documentId !in s.docs && StoreEvolves(s, Save(s, document).store)
    ensures KnownAt(Save(s, document).store, x)
  {
    var s' := Save(s, document).store;
    LockedExist(s, x);
    forall d | d in LockSet(x) ensures Footprint(s, s', d) {}
    TxnStable(s, s', x);
  }

  lemma CommitSaveStore(db: Db, t: nat)
    requires DbInv(db) && t in db.saves && db.saves[t].phase.Stored?
    ensures var s, x := db.committed, db.saves[t].document;
            && x.documentId !in s.docs && Admissible(s, DoSave(x))
            && StoreInv(Save(s, x).store) && StoreEvolves(s, Save(s, x).store)
            && Perform(s, DoSave(x)).value == SaveReply(Ok(x))
  {
    assert SaveOk(db.committed, db.saves, t);
    SaveCommits(db.committed, db.saves[t]);
    TransitionsKeepInvariants(db.committed, DoSave(db.saves[t].document));
    TransitionsOnlyAccumulate(db.committed, DoSave(db.saves[t].document));
  }

  lemma CommitSaveStep(db: Db, t: nat, db': Db)
    requires DbInv(db) && DbNext(db, CommitSave(t), db')
    ensures DbInv(db') && Refines(db, CommitSave(t), db') && StoreEvolves(db.committed, db'.committed)
  {
    CommitSaveStore(db, t);
    SameStoreIsItself(db'.committed);
    CommitSaveKeeps(db.committed, db.saves, t);
    forall u | u in db'.txns ensures TxnOk(db', u) {
      assert TxnOk(db, u);
      SaveLeaves(db.committed, db.saves[t].document, db.txns[u]);
    }
    forall a, b | a in db'.txns && b in db'.txns && a != b ensures Exclusive(db', a, b) { assert Exclusive(db, a, b); }
  }

  /** A save's own statements touch no transaction and no committed row. */
  lemma SaveStepKeeps(db: Db, l: DbLabel, db': Db)
    requires DbInv(db) && DbNext(db, l, db') && (l.BeginSave? || l.SaveStatement? || l.AbortSave?)
    ensures DbInv(db')
  {
    match l {
      case BeginSave(t, x) => BeginSaveKeeps(db.committed, db.saves, t, x);
      case SaveStatement(t) => SaveStatementKeeps(db.committed, db.saves, t);
      case AbortSave(t) => AbortSaveKeeps(db.committed, db.saves, t);
      case _ =>
    }
    forall u | u in db'.txns ensures TxnOk(db', u) { assert TxnOk(db, u); }
    forall a, b | a in db'.txns && b in db'.txns && a != b ensures Exclusive(db', a, b) { assert Exclusive(db, a, b); }
  }

  /** An aborted transaction has written nothing and holds nothing. */
  lemma AbortedTxn(db: Db, t: nat, db': Db)
    requires TxnOk(db, t) && DbNext(db, Abort(t), db')
    ensures TxnOk(db', t)
  {
  }

  lemma AbortKeepsPair(db: Db, t: nat, db': Db, a: nat, b: nat)
    requires DbNext(db, Abort(t), db') && Exclusive(db, a, b)
    ensures Exclusive(db', a, b)
  {
  }

  lemma AbortKeeps(db: Db, t: nat, db': Db)
    requires DbInv(db) && DbNext(db, Abort(t), db')
    ensures DbInv(db')
  {
    assert TxnOk(db, t);
    AbortedTxn(db, t, db');
    forall u | u in db'.txns ensures TxnOk(db', u) { if u != t { assert TxnOk(db, u); } }
    forall a, b | a in db'.txns && b in db'.txns && a != b ensures Exclusive(db', a, b) {
      assert Exclusive(db, a, b);
      AbortKeepsPair(db, t, db', a, b);
    }
  }

  lemma DbStepKeeps(db: Db, l: DbLabel, db': Db)
    requires DbInv(db) && DbNext(db, l, db')
    ensures DbInv(db') && Refines(db, l, db') && StoreEvolves(db.committed, db'.committed)
  {
    StoreIsItself(db.committed);
    match l
    case BeginTxn(t, c) => BeginKeeps(db, t, c, db');
    case Statement(t) => StatementStepKeeps(db, t, db');
    case Commit(t) => CommitKeeps(db, t, db');
    case Abort(t) => AbortKeeps(db, t, db');
    case CommitSave(t) => CommitSaveStep(db, t, db');
    case _ => SaveStepKeeps(db, l, db');
  }

  // ---- runs ---------------------------------------------------------------------

  ghost predicate DbTakes(dbs: seq<Db>, labels: seq<DbLabel>, i: nat) {
    i < |labels| && i + 1 < |dbs| && DbNext(dbs[i], labels[i], dbs[i + 1])
  }

  ghost predicate IsDbRun(dbs: seq<Db>, labels: seq<DbLabel>) {
    && |dbs| == |labels| + 1 && dbs[0] == Db(EMPTY_STORE, map[], map[])
    && forall i: nat {:trigger DbTakes(dbs, labels, i)} :: i < |labels| ==> DbTakes(dbs, labels, i)
  }

  lemma DbRunStep(dbs: seq<Db>, labels: seq<DbLabel>, i: nat, db: Db, l: DbLabel, db': Db)
    requires IsDbRun(dbs, labels) && i < |labels| && db == dbs[i] && l == labels[i] && db' == dbs[i + 1] && DbInv(db)
    ensures DbInv(db') && Refines(db, l, db') && DbNext(db, l, db')
  {
    assert DbTakes(dbs, labels, i);
    DbStepKeeps(db, l, db');
  }

  lemma {:induction false} DbRunsAreSound(dbs: seq<Db>, labels: seq<DbLabel>, i: nat)
    requires IsDbRun(dbs, labels) && i < |dbs|
    ensures DbInv(dbs[i])
    decreases i
  {
    if i == 0 { EmptyStoreIsSound(); }
    else {
      DbRunsAreSound(dbs, labels, i - 1);
      DbRunStep(dbs, labels, i - 1, dbs[i - 1], labels[i - 1], dbs[i]);
    }
  }

  /** In every committed state the summary counts exactly the active hold rows, and no
      document shows a destruction intent beside an active hold row - although the
      NOT EXISTS subqueries may have read arbitrarily old snapshots. */
  lemma CommittedStatesAreSound(dbs: seq<Db>, labels: seq<DbLabel>, i: nat, d: DocumentId)
    requires IsDbRun(dbs, labels) && i < |dbs| && d in dbs[i].committed.docs
    ensures var s := dbs[i].committed;
            && s.docs[d].holdCount == |ActiveHolds(s.holds, d)|
            && (s.docs[d].holdStatus == Active <==> ActiveHolds(s.holds, d) != {})
            && (s.docs[d].purgeStartedAt.Some? ==> ActiveHolds(s.holds, d) == {})
            && (s.docs[d].purgeStatus == Purged <==> s.docs[d].purgedAt.Some?)
  {
    DbRunsAreSound(dbs, labels, i);
    var s := dbs[i].committed;
    assert RowInv(s, d);
    assert |ActiveHolds(s.holds, d)| == 0 <==> ActiveHolds(s.holds, d) == {};
  }

  // ---- the atomic run -----------------------------------------------------------

  lemma SameAfterUpdate(a: Store, b: Store, a': Store, b': Store, d: DocumentId)
    requires SameStore(a, b) && d in a.docs && d in a'.docs && d in b'.docs
    requires a' == a.(docs := a.docs[d := a'.docs[d]], holds := a'.holds)
    requires b' == b.(docs := b.docs[d := b'.docs[d]], holds := b'.holds)
    requires a'.holds == b'.holds && Untouched(a'.docs[d]) == Untouched(b'.docs[d])
    ensures SameStore(a', b')
  {
    forall e | e in a'.docs ensures SameRow(a', b', e) { assert SameRow(a, b, e); }
  }

  lemma PerformIsOneRow(a: Store, c: Command)
    requires !c.DoSave? && !c.DoApply? && c.d in a.docs
    ensures var a' := Perform(a, c).store;
            c.d in a'.docs && a' == a.(docs := a.docs[c.d := a'.docs[c.d]], holds := a'.holds)
  {
    assert a.docs[c.d := a.docs[c.d]] == a.docs;
  }

  ghost predicate RowAlike(a: Store, b: Store, c: Command)
    requires !c.DoSave? && !c.DoApply?
  {
    var a', b' := Perform(a, c).store, Perform(b, c).store;
    && c.d in a'.docs && c.d in b'.docs && a'.holds == b'.holds && Untouched(a'.docs[c.d]) == Untouched(b'.docs[c.d])
    && SameReply(Perform(a, c).value, Perform(b, c).value)
  }

  lemma PurgeRowAlike(a: Store, b: Store, c: Command)
    requires SingleStatement(c) && SameRow(a, b, c.d) && a.holds == b.holds
    ensures RowAlike(a, b, c)
  {
  }

  lemma HoldRowAlike(a: Store, b: Store, c: Command)
    requires (c.DoAdmit? || c.DoRefresh?) && SameRow(a, b, c.d) && a.holds == b.holds
    ensures RowAlike(a, b, c)
  {
  }

  lemma ReleaseRowAlike(a: Store, b: Store, c: Command)
    requires c.DoRelease? && SameRow(a, b, c.d) && a.holds == b.holds
    ensures RowAlike(a, b, c)
  {
  }

  lemma PerformRespectsRow(a: Store, b: Store, c: Command)
    requires SameStore(a, b) && !c.DoSave? && !c.DoApply?
    ensures SameStore(Perform(a, c).store, Perform(b, c).store) && SameReply(Perform(a, c).value, Perform(b, c).value)
  {
    if c.d in a.docs {
      assert SameRow(a, b, c.d);
      PerformIsOneRow(a, c);
      PerformIsOneRow(b, c);
      if SingleStatement(c) { PurgeRowAlike(a, b, c); } else if c.DoRelease? { ReleaseRowAlike(a, b, c); } else
          { HoldRowAlike(a, b, c); }
      SameAfterUpdate(a, b, Perform(a, c).store, Perform(b, c).store, c.d);
    }
  }

  lemma ApplyAlike(a: Store, b: Store, c: Command)
    requires c.DoApply? && SameRow(a, b, c.source) && SameRow(a, b, c.target) && a.relationships == b.relationships
    ensures var a', b' := Perform(a, c).store, Perform(b, c).store;
            && (a' == a <==> b' == b)
            && (a' != a ==> LinksRows(a, a', c) && LinksRows(b, b', c))
    ensures SameReply(Perform(a, c).value, Perform(b, c).value)
  {
    var r := c.relationship;
    assert |a.relationships + [r]| != |a.relationships|;
  }

  ghost predicate LinksRows(s: Store, s': Store, c: Command)
    requires c.DoApply? && c.source in s.docs && c.target in s.docs
  {
    s' == s.(docs := s.docs[c.source := s.docs[c.source].(supersededBy := Some(c.target), updatedAt := c.now)]
                           [c.target := WithOrigin(s.docs[c.target], c.kind, c.source).(updatedAt := c.now)],
             relationships := s.relationships + [c.relationship])
  }

  lemma PerformRespectsApply(a: Store, b: Store, c: Command)
    requires SameStore(a, b) && c.DoApply?
    ensures SameStore(Perform(a, c).store, Perform(b, c).store) && SameReply(Perform(a, c).value, Perform(b, c).value)
  {
    if c.source in a.docs && c.target in a.docs {
      assert SameRow(a, b, c.source) && SameRow(a, b, c.target);
      ApplyAlike(a, b, c);
      var a', b' := Perform(a, c).store, Perform(b, c).store;
      if a' != a { LinksAlike(a, b, a', b', c); }
    }
  }

  lemma LinksAlike(a: Store, b: Store, a': Store, b': Store, c: Command)
    requires SameStore(a, b) && c.DoApply? && SameRow(a, b, c.source) && SameRow(a, b, c.target)
    requires LinksRows(a, a', c) && LinksRows(b, b', c)
    ensures SameStore(a', b')
  {
    forall d | d in a'.docs ensures SameRow(a', b', d) { assert SameRow(a, b, d); }
  }

  /** No transition's outcome depends on `updated_at`. */
  lemma PerformRespects(a: Store, b: Store, c: Command)
    requires SameStore(a, b)
    ensures SameStore(Perform(a, c).store, Perform(b, c).store) && SameReply(Perform(a, c).value, Perform(b, c).value)
  {
    match c
    case DoSave(x) =>
      if x.documentId in a.docs { assert SameRow(a, b, x.documentId); }
      var a', b' := Perform(a, c).store, Perform(b, c).store;
      forall d | d in a'.docs ensures SameRow(a', b', d) { if d in a.docs { assert SameRow(a, b, d); } }
    case DoApply(_, _, _, _, _) => PerformRespectsApply(a, b, c);
    case _ => PerformRespectsRow(a, b, c);
  }

  lemma SameStoreComposes(a: Store, b: Store, c: Store)
    requires SameStore(a, b) && SameStore(b, c)
    ensures SameStore(a, c)
  {
    forall d | d in a.docs ensures SameRow(a, c, d) { assert SameRow(a, b, d) && SameRow(b, c, d); }
  }

  // ---- the history a run commits ------------------------------------------------

  /** The repository calls committed in the first `i` steps, in order. */
  ghost function Committed(dbs: seq<Db>, labels: seq<DbLabel>, i: nat): seq<Command>
    requires |dbs| == |labels| + 1 && i < |dbs|
    decreases i
  {
    if i == 0 then []
    else
      var cs := Committed(dbs, labels, i - 1);
      match Committing(dbs[i - 1], labels[i - 1])
      case None => cs
      case Some(call) => cs + [call.command]
  }

  lemma {:induction false} HistoryAppends(s: Store, cs: seq<Command>, c: Command)
    ensures PerformAll(s, cs + [c]) == Perform(PerformAll(s, cs), c).store
    ensures AdmissibleAll(s, cs + [c]) <==> AdmissibleAll(s, cs) && Admissible(PerformAll(s, cs), c)
    decreases |cs|
  {
    if cs == [] {
      assert [c][1..] == [];
    } else {
      HistoryAppends(Perform(s, cs[0]).store, cs[1..], c);
      assert (cs + [c])[1..] == cs[1..] + [c] && (cs + [c])[0] == cs[0];
    }
  }

  lemma AdmissibleRespects(a: Store, b: Store, c: Command)
    requires SameStore(a, b) && Admissible(b, c)
    ensures Admissible(a, c)
  {
  }

  /** The atomic repository after a history, one more call on. */
  lemma HistoryFollows(cs: seq<Command>, db: Db, l: DbLabel, db': Db, c: Command)
    requires AdmissibleAll(EMPTY_STORE, cs) && SameStore(PerformAll(EMPTY_STORE, cs), db.committed)
    requires Refines(db, l, db') && Committing(db, l).Some? && Committing(db, l).value.command == c
    ensures AdmissibleAll(EMPTY_STORE, cs + [c]) && SameStore(PerformAll(EMPTY_STORE, cs + [c]), db'.committed)
  {
    var a := PerformAll(EMPTY_STORE, cs);
    HistoryAppends(EMPTY_STORE, cs, c);
    AdmissibleRespects(a, db.committed, c);
    PerformRespects(a, db.committed, c);
    SameStoreComposes(Perform(a, c).store, Perform(db.committed, c).store, db'.committed);
  }

  /** Every run of interleaved statements commits an admissible history of atomic calls, and
      holds exactly what the in-memory repository holds after that history, up to
      `updated_at`: what is proved of all histories holds of all committed states. */
  lemma {:induction false} TransactionsRefineAtomicSteps(dbs: seq<Db>, labels: seq<DbLabel>, i: nat)
    requires IsDbRun(dbs, labels) && i < |dbs|
    ensures AdmissibleAll(EMPTY_STORE, Committed(dbs, labels, i))
    ensures SameStore(PerformAll(EMPTY_STORE, Committed(dbs, labels, i)), dbs[i].committed)
    decreases i
  {
    if i == 0 { SameStoreIsItself(dbs[0].committed); }
    else {
      TransactionsRefineAtomicSteps(dbs, labels, i - 1);
      OneMoreStep(dbs, labels, i - 1, Committed(dbs, labels, i - 1), Committed(dbs, labels, i));
    }
  }

  lemma OneMoreStep(dbs: seq<Db>, labels: seq<DbLabel>, i: nat, cs: seq<Command>, cs': seq<Command>)
    requires IsDbRun(dbs, labels) && i < |labels|
    requires AdmissibleAll(EMPTY_STORE, cs) && SameStore(PerformAll(EMPTY_STORE, cs), dbs[i].committed)
    requires cs' == match Committing(dbs[i], labels[i]) case None => cs case Some(call) => cs + [call.command]
    ensures AdmissibleAll(EMPTY_STORE, cs') && SameStore(PerformAll(EMPTY_STORE, cs'), dbs[i + 1].committed)
  {
    DbRunsAreSound(dbs, labels, i);
    DbRunStep(dbs, labels, i, dbs[i], labels[i], dbs[i + 1]);
    match Committing(dbs[i], labels[i])
    case None =>
    case Some(call) => HistoryFollows(cs, dbs[i], labels[i], dbs[i + 1], call.command);
  }

  /** Committed supersession graphs are those of atomic histories: disjoint simple paths. */
  lemma CommittedGraphsArePaths(dbs: seq<Db>, labels: seq<DbLabel>, i: nat, x: DocumentId, y: DocumentId)
    requires IsDbRun(dbs, labels) && i < |dbs| && x in dbs[i].committed.docs && y in dbs[i].committed.docs
    ensures var s := dbs[i].committed;
            && GraphInv(s) && PointersInverseAt(s, x) && !Revisits(s, x)
            && (CurrentOf(s, x) == CurrentOf(s, y) <==> OnPathOf(s, x, y) || OnPathOf(s, y, x))
            && |Current(s)| == |s.docs| - |s.relationships|
  {
    DbRunsAreSound(dbs, labels, i);
    var s := dbs[i].committed;
    assert PointersInverseAt(s, x);
    SoundStoresResolve(s, x);
    SamePathSameEnd(s, x, y);
  }

  ghost predicate HoldStands(s: Store, h: HoldId) {
    h in s.holds && s.holds[h].status == Active
  }

  ghost predicate CommitsReleaseOf(db: Db, l: DbLabel, h: HoldId) {
    match Committing(db, l)
    case None => false
    case Some(call) => call.command.DoRelease? && call.command.holdId == h
  }

  /** A guarded transition leaves an active hold active, unless it releases that hold. */
  lemma HoldOutlastsCall(s: Store, c: Command, s': Store, h: HoldId)
    requires Admissible(s, c) && SameStore(Perform(s, c).store, s') && HoldStands(s, h)
    requires !(c.DoRelease? && c.holdId == h)
    ensures HoldStands(s', h)
  {
    match c
    case DoRelease(_, _, _, _) =>
    case DoApply(_, _, _, _, _) => ApplyKeepsHolds(s, c);
    case _ =>
  }

  lemma ApplyKeepsHolds(s: Store, c: Command)
    requires c.DoApply?
    ensures Perform(s, c).store.holds == s.holds
  {
  }

  lemma HoldOutlastsDbStep(db: Db, l: DbLabel, db': Db, h: HoldId)
    requires DbInv(db) && DbNext(db, l, db') && HoldStands(db.committed, h) && !CommitsReleaseOf(db, l, h)
    ensures HoldStands(db'.committed, h)
  {
    DbStepKeeps(db, l, db');
    match Committing(db, l)
    case None =>
    case Some(call) => HoldOutlastsCall(db.committed, call.command, db'.committed, h);
  }

  /** Once a hold is committed, every later committed state shows it active and its document
      without a destruction intent, until a release of that hold commits - whatever other
      transactions and saves run in between. */
  lemma {:induction false} CommittedHoldsForbidIntent(dbs: seq<Db>, labels: seq<DbLabel>, i: nat, j: nat, h: HoldId)
    requires IsDbRun(dbs, labels) && i <= j < |dbs| && HoldStands(dbs[i].committed, h)
    requires forall k :: i <= k < j ==> !CommitsReleaseOf(dbs[k], labels[k], h)
    ensures var s := dbs[j].committed;
            && HoldStands(s, h) && s.holds[h].documentId in s.docs && s.docs[s.holds[h].documentId].purgeStartedAt.None?
    decreases j
  {
    if i < j {
      CommittedHoldsForbidIntent(dbs, labels, i, j - 1, h);
      DbRunsAreSound(dbs, labels, j - 1);
      assert DbTakes(dbs, labels, j - 1);
      HoldOutlastsDbStep(dbs[j - 1], labels[j - 1], dbs[j], h);
    }
    DbRunsAreSound(dbs, labels, j);
    StandingForbids(dbs[j].committed, h);
  }

  lemma StandingForbids(s: Store, h: HoldId)
    requires RowsInv(s) && HoldStands(s, h)
    ensures s.holds[h].documentId in s.docs && s.docs[s.holds[h].documentId].purgeStartedAt.None?
  {
    var d := s.holds[h].documentId;
    assert RowInv(s, d) && h in ActiveHolds(s.holds, d);
  }

  /** The committed state a transaction remembers having decided on. */
  function Remembered(x: Txn): Option<Store> {
    match x.phase
    case Rechecking(at) => Some(at)
    case Ended(_, at) => Some(at)
    case _ => None
  }

  ghost predicate CommittedAt(db: Db, t: nat, at: Store) {
    t in db.txns && db.committed == at
  }

  lemma RemembersCommitted(db: Db, l: DbLabel, db': Db, t: nat)
    requires DbInv(db) && DbNext(db, l, db') && t in db'.txns && Remembered(db'.txns[t]).Some?
    ensures t in db.txns
    ensures Remembered(db.txns[t]) == Remembered(db'.txns[t]) || Remembered(db'.txns[t]) == Some(db.committed)
  {
    if l == Statement(t) {
      assert TxnOk(db, t);
      StatementRemembers(db, t, db'.txns[t]);
    }
  }

  lemma StatementRemembers(db: Db, t: nat, x': Txn)
    requires TxnOk(db, t) && Advances(db, t, x') && Remembered(x').Some?
    ensures Remembered(db.txns[t]) == Remembered(x') || Remembered(x') == Some(db.committed)
  {
    var x := db.txns[t];
    OverlayNothing(db.committed);
    if x.phase.Inserted? { InsertedStep(db.committed, x); }
    else if x.phase.Locked? { AfterLockRemembers(x, Overlay(db.committed, x.pending)); }
  }

  /** Every answer - refusals and replays included - is the atomic contract's answer on a
      state that was committed while the transaction ran. */
  lemma {:induction false} AnswersLinearize(dbs: seq<Db>, labels: seq<DbLabel>, j: nat, t: nat)
    requires IsDbRun(dbs, labels) && j < |dbs| && t in dbs[j].txns && Remembered(dbs[j].txns[t]).Some?
    ensures exists i: nat :: i <= j && CommittedAt(dbs[i], t, Remembered(dbs[j].txns[t]).value)
    decreases j
  {
    var at := Remembered(dbs[j].txns[t]).value;
    if j > 0 {
      DbRunsAreSound(dbs, labels, j - 1);
      assert DbTakes(dbs, labels, j - 1);
      RemembersCommitted(dbs[j - 1], labels[j - 1], dbs[j], t);
      if CommittedAt(dbs[j - 1], t, at) {
      } else {
        AnswersLinearize(dbs, labels, j - 1, t);
        var i: nat :| i <= j - 1 && CommittedAt(dbs[i], t, at);
        assert CommittedAt(dbs[i], t, at);
      }
    }
  }

  lemma EndedAnswers(dbs: seq<Db>, labels: seq<DbLabel>, j: nat, t: nat)
    requires IsDbRun(dbs, labels) && j < |dbs| && t in dbs[j].txns && dbs[j].txns[t].phase.Ended?
    ensures SameReply(Perform(dbs[j].txns[t].phase.at, dbs[j].txns[t].command).value, dbs[j].txns[t].phase.reply)
    ensures exists i: nat :: i <= j && CommittedAt(dbs[i], t, dbs[j].txns[t].phase.at)
  {
    DbRunsAreSound(dbs, labels, j);
    assert TxnOk(dbs[j], t);
    AnswersLinearize(dbs, labels, j, t);
  }

  ghost predicate SaveCommittedAt(db: Db, t: nat, at: Store) {
    t in db.saves && db.committed == at
  }

  /** A save's answer too - recorded, or refused by its read or by a unique index - is the
      atomic save's on a state committed while it ran. */
  lemma {:induction false} SavesLinearize(dbs: seq<Db>, labels: seq<DbLabel>, j: nat, t: nat)
    requires IsDbRun(dbs, labels) && j < |dbs| && t in dbs[j].saves && dbs[j].saves[t].phase.SaveEnded?
    ensures var x := dbs[j].saves[t];
            && SameReply(Perform(x.phase.at, DoSave(x.document)).value, x.phase.reply)
            && exists i: nat :: i <= j && SaveCommittedAt(dbs[i], t, x.phase.at)
    decreases j
  {
    var x := dbs[j].saves[t];
    DbRunsAreSound(dbs, labels, j);
    assert SaveOk(dbs[j].committed, dbs[j].saves, t);
    if j > 0 {
      assert DbTakes(dbs, labels, j - 1);
      SaveRemembers(dbs[j - 1], labels[j - 1], dbs[j], t);
      if SaveCommittedAt(dbs[j - 1], t, x.phase.at) {
      } else {
        SavesLinearize(dbs, labels, j - 1, t);
        var i: nat :| i <= j - 1 && SaveCommittedAt(dbs[i], t, x.phase.at);
        assert SaveCommittedAt(dbs[i], t, x.phase.at);
      }
    }
  }

  lemma SaveRemembers(db: Db, l: DbLabel, db': Db, t: nat)
    requires DbNext(db, l, db') && t in db'.saves && db'.saves[t].phase.SaveEnded?
    ensures t in db.saves && (db.saves[t] == db'.saves[t] || db'.saves[t].phase.at == db.committed)
  {
  }
}
