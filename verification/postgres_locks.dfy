/** The locking protocol: who waits for whom, and why somebody can always go on. */
module PostgresLocks {
  import opened Records
  import opened Transitions
  import opened CustodyInvariants
  import opened Postgres
  import opened PostgresRefinement
  import opened PostgresSaves
  import opened PostgresRuns

  /** The document row a lock request asks for. */
  function Wanted(x: Txn): DocumentId
    requires x.phase.Targeting? && !x.command.DoSave? && (x.phase.second ==> x.command.DoApply?)
  {
    if x.phase.second then SecondRow(x.command) else FirstRow(x.command)
  }

  ghost predicate Requests(db: Db, t: nat) {
    t in db.txns && db.txns[t].phase.Targeting? && TxnInv(db.committed, db.txns[t])
  }

  ghost predicate WaitsFor(db: Db, t: nat, u: nat) {
    && Requests(db, t) && u in db.txns && u != t && !db.txns[u].command.DoSave?
    && Wanted(db.txns[t]) in LockSet(db.txns[u])
  }

  /** Rows are requested in increasing order along every chain of waits. */
  lemma WaitsClimb(db: Db, t: nat, u: nat)
    requires WaitsFor(db, t, u) && Requests(db, u)
    ensures Before(Wanted(db.txns[t]), Wanted(db.txns[u]))
  {
    var c := db.txns[u].command;
    BeforeIsTotal(c.source, c.target);
  }

  ghost predicate WaitsForNext(db: Db, chain: seq<nat>, i: nat) {
    i + 1 < |chain| && WaitsFor(db, chain[i], chain[i + 1])
  }

  ghost predicate WaitChain(db: Db, chain: seq<nat>) {
    forall i: nat {:trigger WaitsForNext(db, chain, i)} :: i + 1 < |chain| ==> WaitsForNext(db, chain, i)
  }

  lemma {:induction false} ChainsClimb(db: Db, chain: seq<nat>, j: nat)
    requires WaitChain(db, chain) && 0 < j && j + 1 < |chain|
    ensures Requests(db, chain[0]) && Requests(db, chain[j])
    ensures Before(Wanted(db.txns[chain[0]]), Wanted(db.txns[chain[j]]))
    decreases j
  {
    assert WaitsForNext(db, chain, 0) && WaitsForNext(db, chain, j) && WaitsForNext(db, chain, j - 1);
    WaitsClimb(db, chain[j - 1], chain[j]);
    if j > 1 {
      ChainsClimb(db, chain, j - 1);
      BeforeIsOrder(Wanted(db.txns[chain[0]]), Wanted(db.txns[chain[j - 1]]), Wanted(db.txns[chain[j]]));
    }
  }

  /** No cycle of transactions waiting for each other, in any state. */
  lemma WaitsAreAcyclic(db: Db, cycle: seq<nat>)
    requires |cycle| >= 2 && WaitChain(db, cycle)
    ensures cycle[0] != cycle[|cycle| - 1]
  {
    var n := |cycle| - 1;
    assert WaitsForNext(db, cycle, 0);
    if n > 1 && cycle[0] == cycle[n] {
      var again := cycle + [cycle[1]];
      forall i: nat | i + 1 < |again| ensures WaitsForNext(db, again, i) {
        if i < n { assert WaitsForNext(db, cycle, i); }
      }
      ChainsClimb(db, again, n);
      BeforeIsOrder(Wanted(db.txns[cycle[0]]), "", "");
    }
  }

  // ---- progress -----------------------------------------------------------------

  /** The next statement, or the commit, of `t` needs no lock that is taken. */
  ghost predicate CanStep(db: Db, t: nat) {
    exists l, db' :: (l == Statement(t) || l == Commit(t)) && DbNext(db, l, db')
  }

  lemma AdvancesCanStep(db: Db, t: nat, x': Txn)
    requires t in db.txns && !db.txns[t].command.DoSave? && Advances(db, t, x')
    ensures CanStep(db, t)
  {
    assert DbNext(db, Statement(t), db.(txns := db.txns[t := x']));
  }

  lemma UnblockedSteps(db: Db, t: nat)
    requires Requests(db, t) && forall u :: !WaitsFor(db, t, u)
    ensures CanStep(db, t)
  {
    var x := db.txns[t];
    forall u | u in db.txns && u != t && !db.txns[u].command.DoSave?
      ensures Wanted(x) !in LockSet(db.txns[u])
    { assert !WaitsFor(db, t, u); }
    AdvancesCanStep(db, t, Granted(x, db.committed, x.phase.snapshot, x.phase.second));
  }

  lemma ReadingSteps(db: Db, t: nat)
    requires TxnOk(db, t) && (db.txns[t].phase.Begun? || db.txns[t].phase.LockedOne? || db.txns[t].phase.Rechecking?)
    ensures CanStep(db, t)
  {
    var x, s := db.txns[t], db.committed;
    var c := x.command;
    if x.phase.Begun? {
      AdvancesCanStep(db, t, if FirstRow(c) in s.docs && Where(c, s.docs[FirstRow(c)], s.holds)
                             then x.(phase := Targeting(s, false)) else NoRow(x, s));
    } else if x.phase.LockedOne? {
      AdvancesCanStep(db, t, if SecondRow(c) in s.docs then x.(phase := Targeting(s, true)) else NoRow(x, s));
    } else {
      AdvancesCanStep(db, t, if c.d in s.docs && s.docs[c.d].purgeStartedAt.Some?
                             then x.(phase := Ended(DocumentReply(Some(s.docs[c.d])), s))
                             else x.(phase := Ended(DocumentReply(None), x.phase.at)));
    }
  }

  lemma LockedSteps(db: Db, t: nat)
    requires TxnOk(db, t) && (db.txns[t].phase.Locked? || db.txns[t].phase.Inserted?)
    ensures CanStep(db, t)
  {
    var x, s := db.txns[t], db.committed;
    if x.phase.Locked? {
      AdvancesCanStep(db, t, AfterLock(x, Overlay(s, x.pending)));
    } else {
      AdvancesCanStep(db, t, AfterInsert(x, Overlay(s, x.pending)));
    }
  }

  lemma OpenSteps(db: Db, t: nat)
    requires TxnOk(db, t) && !Finished(db.txns[t])
    requires db.txns[t].phase.Targeting? ==> forall u :: !WaitsFor(db, t, u)
    ensures CanStep(db, t)
  {
    var x, s := db.txns[t], db.committed;
    match x.phase
    case Targeting(_, _) => UnblockedSteps(db, t);
    case Locked => LockedSteps(db, t);
    case Inserted => LockedSteps(db, t);
    case Written(reply) =>
      assert DbNext(db, Commit(t), db.(committed := Overlay(s, x.pending),
                                       txns := db.txns[t := Txn(x.command, Ended(reply, s), NOTHING)]));
    case _ => ReadingSteps(db, t);
  }

  /** The requests for rows beyond the one `t` asks for. */
  ghost function Higher(db: Db, t: nat): set<nat>
    requires Requests(db, t)
  {
    set u | u in db.txns && Requests(db, u) && Before(Wanted(db.txns[t]), Wanted(db.txns[u]))
  }

  lemma HigherShrinks(db: Db, t: nat, u: nat)
    requires Requests(db, t) && Requests(db, u) && Before(Wanted(db.txns[t]), Wanted(db.txns[u]))
    ensures Higher(db, u) < Higher(db, t)
  {
    BeforeIsOrder(Wanted(db.txns[u]), "", "");
    assert u in Higher(db, t) && u !in Higher(db, u);
    forall v | v in Higher(db, u) ensures v in Higher(db, t) {
      BeforeIsOrder(Wanted(db.txns[t]), Wanted(db.txns[u]), Wanted(db.txns[v]));
    }
  }

  lemma SmallerSet<T>(a: set<T>, b: set<T>)
    requires a < b
    ensures |a| < |b|
  {
    assert |b| == |a| + |b - a| by { assert b == a + (b - a); }
  }

  /** Following the waits from any open transaction ends at one that can go on. */
  lemma {:induction false} WaitsEnd(db: Db, t: nat)
    requires DbInv(db) && t in db.txns && !Finished(db.txns[t])
    ensures exists u :: CanStep(db, u)
    decreases if Requests(db, t) then |Higher(db, t)| + 1 else 0
  {
    assert TxnOk(db, t);
    if u: nat :| WaitsFor(db, t, u) {
      assert TxnOk(db, u);
      if Requests(db, u) {
        WaitsClimb(db, t, u);
        HigherShrinks(db, t, u);
        SmallerSet(Higher(db, u), Higher(db, t));
      }
      WaitsEnd(db, u);
    } else {
      OpenSteps(db, t);
    }
  }

  /** Deadlock freedom: in every state of every run, as long as a transaction is open, some
      transaction can take its next statement or commit without anybody giving up. */
  lemma RunsNeverDeadlock(dbs: seq<Db>, labels: seq<DbLabel>, i: nat, t: nat)
    requires IsDbRun(dbs, labels) && i < |dbs| && t in dbs[i].txns && !Finished(dbs[i].txns[t])
    ensures exists u :: CanStep(dbs[i], u)
  {
    DbRunsAreSound(dbs, labels, i);
    WaitsEnd(dbs[i], t);
  }

  /** How many statements a transaction can still take before its commit or its end. */
  function StatementsLeft(x: Txn): nat {
    match x.phase
    case Begun => 6
    case Targeting(_, second) => if second then 3 else 5
    case LockedOne => 4
    case Locked => 2
    case Inserted => 1
    case Rechecking(_) => 1
    case _ => 0
  }

  lemma StatementsRunOut(db: Db, t: nat, db': Db)
    requires TxnOk(db, t) && DbNext(db, Statement(t), db')
    ensures StatementsLeft(db'.txns[t]) < StatementsLeft(db.txns[t])
  {
    var x := db.txns[t];
    if x.phase.Targeting? { GrantRunsOut(x, db.committed, x.phase.snapshot, x.phase.second); }
    if x.phase.Locked? { LockRunsOut(x, Overlay(db.committed, x.pending)); }
    if x.phase.Inserted? { InsertRunsOut(x, Overlay(db.committed, x.pending)); }
  }

  lemma GrantRunsOut(x: Txn, s: Store, snapshot: Store, second: bool)
    requires !x.command.DoSave? && (second ==> x.command.DoApply?)
    ensures StatementsLeft(Granted(x, s, snapshot, second)) < (if second then 3 else 5)
  {
  }

  lemma LockRunsOut(x: Txn, view: Store)
    requires !x.command.DoSave? && !SingleStatement(x.command) && Rows(x.command) <= view.docs.Keys
    ensures StatementsLeft(AfterLock(x, view)) < 2
  {
  }

  lemma InsertRunsOut(x: Txn, view: Store)
    requires (x.command.DoAdmit? || x.command.DoRelease?) && Rows(x.command) <= view.docs.Keys
    requires x.command.DoRelease? ==> x.command.holdId in view.holds
    ensures StatementsLeft(AfterInsert(x, view)) == 0
  {
  }

  function StatementsTaken(labels: seq<DbLabel>, t: nat): nat {
    if labels == [] then 0
    else StatementsTaken(labels[..|labels| - 1], t) + (if labels[|labels| - 1] == Statement(t) then 1 else 0)
  }

  lemma StepTakesStatement(dbs: seq<Db>, labels: seq<DbLabel>, i: nat, t: nat, db: Db, db': Db)
    requires IsDbRun(dbs, labels) && i < |labels| && db == dbs[i] && db' == dbs[i + 1] && t in db'.txns
    ensures t in db.txns ==>
              StatementsLeft(db'.txns[t]) + (if labels[i] == Statement(t) then 1 else 0) <= StatementsLeft(db.txns[t])
    ensures t !in db.txns ==> labels[i] != Statement(t) && StatementsLeft(db'.txns[t]) == 6
  {
    assert DbTakes(dbs, labels, i);
    if labels[i] == Statement(t) {
      DbRunsAreSound(dbs, labels, i);
      assert TxnOk(db, t);
      StatementsRunOut(db, t, db');
    } else {
      OthersLeaveStatements(db, labels[i], db', t);
    }
  }

  lemma OthersLeaveStatements(db: Db, l: DbLabel, db': Db, t: nat)
    requires DbNext(db, l, db') && l != Statement(t) && t in db'.txns
    ensures t in db.txns ==> StatementsLeft(db'.txns[t]) <= StatementsLeft(db.txns[t])
    ensures t !in db.txns ==> StatementsLeft(db'.txns[t]) == 6
  {
  }

  ghost predicate NoTransaction(db: Db, t: nat) {
    t !in db.txns
  }

  /** No transaction of any run takes more than six statements, whatever it waits for. */
  lemma {:induction false} TransactionsAreShort(dbs: seq<Db>, labels: seq<DbLabel>, j: nat, t: nat)
    requires IsDbRun(dbs, labels) && j < |dbs|
    ensures NoTransaction(dbs[j], t) ==> StatementsTaken(labels[..j], t) == 0
    ensures !NoTransaction(dbs[j], t) ==> StatementsTaken(labels[..j], t) + StatementsLeft(dbs[j].txns[t]) <= 6
    decreases j
  {
    if j > 0 {
      TransactionsAreShort(dbs, labels, j - 1, t);
      assert labels[..j][..j - 1] == labels[..j - 1];
      assert DbTakes(dbs, labels, j - 1);
      if t in dbs[j].txns { StepTakesStatement(dbs, labels, j - 1, t, dbs[j - 1], dbs[j]); }
    }
  }

  /** Nobody else holds a row lock. */
  ghost predicate Uncontended(db: Db, t: nat) {
    forall u :: u in db.txns && u != t && !db.txns[u].command.DoSave? ==> LockSet(db.txns[u]) == {}
  }

  lemma UncontendedStays(db: Db, l: DbLabel, db': Db, t: nat)
    requires Uncontended(db, t) && (l == Statement(t) || l == Commit(t)) && DbNext(db, l, db')
    ensures Uncontended(db', t)
  {
  }

  lemma OwnStatement(db: Db, t: nat, db': Db)
    requires DbInv(db) && DbNext(db, Statement(t), db')
    ensures db'.committed == db.committed && StatementsLeft(db'.txns[t]) < StatementsLeft(db.txns[t])
    ensures db'.txns[t].command == db.txns[t].command && !db'.txns[t].phase.Aborted?
  {
    assert TxnOk(db, t);
    StatementsRunOut(db, t, db');
    PostgresRuns.StatementKnows(db, t, db'.txns[t]);
    StatementsNeverAbort(db, t, db');
  }

  lemma StatementsNeverAbort(db: Db, t: nat, db': Db)
    requires TxnOk(db, t) && DbNext(db, Statement(t), db')
    ensures !db'.txns[t].phase.Aborted?
  {
  }

  /** The next step of an uncontended transaction, and that it is nearer its end. */
  lemma UncontendedSteps(db: Db, t: nat) returns (l: DbLabel, db': Db)
    requires DbInv(db) && t in db.txns && !Finished(db.txns[t]) && Uncontended(db, t)
    ensures (l == Statement(t) || l == Commit(t)) && DbNext(db, l, db')
  {
    assert TxnOk(db, t);
    OpenSteps(db, t);
    l, db' :| (l == Statement(t) || l == Commit(t)) && DbNext(db, l, db');
  }

  /** The call as the repository contract would make it here and now. */
  ghost predicate IsTheCall(s: Store, c: Command, s': Store, reply: Reply) {
    SameStore(Perform(s, c).store, s') && SameReply(Perform(s, c).value, reply)
  }

  /** A destruction claim that re-checks was refused on what is committed still. */
  ghost predicate Current(db: Db, t: nat) {
    t in db.txns && (db.txns[t].phase.Rechecking? ==> db.txns[t].phase.at == db.committed)
  }

  lemma OwnStatementEnds(db: Db, t: nat, db': Db)
    requires DbInv(db) && Current(db, t) && DbNext(db, Statement(t), db')
    ensures Current(db', t)
    ensures db'.txns[t].phase.Ended? ==>
              IsTheCall(db.committed, db.txns[t].command, db'.committed, db'.txns[t].phase.reply)
  {
    var x' := db'.txns[t];
    assert TxnOk(db, t);
    PostgresRuns.StatementKnows(db, t, x');
    if Remembered(x').Some? { StatementRemembers(db, t, x'); }
    SameStoreIsItself(db.committed);
    StatementsRunOut(db, t, db');
  }

  lemma StepEnds(db: Db, t: nat, l: DbLabel, db': Db)
    requires DbInv(db) && Uncontended(db, t) && Current(db, t)
    requires (l == Statement(t) || l == Commit(t)) && DbNext(db, l, db')
    ensures DbInv(db') && Uncontended(db', t) && Current(db', t)
    ensures db'.txns[t].command == db.txns[t].command && !db'.txns[t].phase.Aborted?
    ensures if db'.txns[t].phase.Ended?
            then IsTheCall(db.committed, db.txns[t].command, db'.committed, db'.txns[t].phase.reply)
            else db'.committed == db.committed && StatementsLeft(db'.txns[t]) < StatementsLeft(db.txns[t])
  {
    DbStepKeeps(db, l, db');
    UncontendedStays(db, l, db', t);
    if l == Statement(t) {
      OwnStatement(db, t, db');
      OwnStatementEnds(db, t, db');
    }
  }

  ghost predicate Path(dbs: seq<Db>, labels: seq<DbLabel>, t: nat) {
    && |dbs| == |labels| + 1
    && forall i: nat {:trigger DbTakes(dbs, labels, i)} :: i < |labels| ==>
         DbTakes(dbs, labels, i) && (labels[i] == Statement(t) || labels[i] == Commit(t))
  }

  lemma PathGrows(db: Db, l: DbLabel, dbs: seq<Db>, labels: seq<DbLabel>, t: nat)
    requires Path(dbs, labels, t) && DbNext(db, l, dbs[0]) && (l == Statement(t) || l == Commit(t))
    ensures Path([db] + dbs, [l] + labels, t)
  {
    forall i: nat | i < |[l] + labels|
      ensures DbTakes([db] + dbs, [l] + labels, i)
      ensures ([l] + labels)[i] == Statement(t) || ([l] + labels)[i] == Commit(t)
    {
      if i > 0 { assert DbTakes(dbs, labels, i - 1); }
    }
  }

  /** Along this path the transaction ends, having done what the atomic call does at its
      start, up to `updated_at`. */
  ghost predicate Finishes(db: Db, dbs: seq<Db>, labels: seq<DbLabel>, t: nat) {
    && Path(dbs, labels, t) && dbs[0] == db && t in db.txns
    && 0 < |labels| <= StatementsLeft(db.txns[t]) + 1
    && t in dbs[|labels|].txns && dbs[|labels|].txns[t].phase.Ended?
    && IsTheCall(db.committed, db.txns[t].command, dbs[|labels|].committed, dbs[|labels|].txns[t].phase.reply)
  }

  lemma FinishesNow(db: Db, l: DbLabel, db': Db, t: nat)
    requires t in db.txns && (l == Statement(t) || l == Commit(t)) && DbNext(db, l, db')
    requires t in db'.txns && db'.txns[t].phase.Ended?
    requires IsTheCall(db.committed, db.txns[t].command, db'.committed, db'.txns[t].phase.reply)
    ensures Finishes(db, [db, db'], [l], t)
  {
    assert Path([db'], [], t);
    PathGrows(db, l, [db'], [], t);
    assert [db] + [db'] == [db, db'] && [l] + [] == [l];
  }

  lemma FinishesLater(db: Db, l: DbLabel, db': Db, dbs: seq<Db>, labels: seq<DbLabel>, t: nat)
    requires t in db.txns && (l == Statement(t) || l == Commit(t)) && DbNext(db, l, db')
    requires Finishes(db', dbs, labels, t)
    requires db'.committed == db.committed && db'.txns[t].command == db.txns[t].command
    requires StatementsLeft(db'.txns[t]) < StatementsLeft(db.txns[t])
    ensures Finishes(db, [db] + dbs, [l] + labels, t)
  {
    PathGrows(db, l, dbs, labels, t);
    assert ([db] + dbs)[|labels| + 1] == dbs[|labels|];
  }

  /** A transaction nobody contends with ends after at most six statements and a commit. */
  lemma {:induction false} UncontendedTransactionsEnd(db: Db, t: nat) returns (dbs: seq<Db>, labels: seq<DbLabel>)
    requires DbInv(db) && Current(db, t) && !Finished(db.txns[t]) && Uncontended(db, t)
    ensures Finishes(db, dbs, labels, t)
    decreases StatementsLeft(db.txns[t])
  {
    var l, db' := UncontendedSteps(db, t);
    StepEnds(db, t, l, db');
    if db'.txns[t].phase.Ended? {
      dbs, labels := [db, db'], [l];
      FinishesNow(db, l, db', t);
    } else {
      dbs, labels := UncontendedTransactionsEnd(db', t);
      FinishesLater(db, l, db', dbs, labels, t);
      dbs, labels := [db] + dbs, [l] + labels;
    }
  }

  /** The next statement, or the commit, of save `t` waits for nobody. */
  ghost predicate SaveCanStep(db: Db, t: nat) {
    exists l, db' :: (l == SaveStatement(t) || l == CommitSave(t)) && DbNext(db, l, db')
  }

  lemma StoredCommits(db: Db, t: nat)
    requires t in db.saves && db.saves[t].phase.Stored?
    ensures SaveCanStep(db, t)
  {
    var x := db.saves[t].document;
    var ended := SaveTxn(x, SaveEnded(SaveReply(Ok(x)), db.committed));
    assert DbNext(db, CommitSave(t), db.(committed := Save(db.committed, x).store, saves := db.saves[t := ended]));
  }

  /** A blocked INSERT waits for a save that has nothing left to wait for: as long as a save
      is open, it or the one it waits for can go on. */
  lemma SavesNeverDeadlock(db: Db, t: nat)
    requires t in db.saves && !SaveFinished(db.saves[t])
    ensures SaveCanStep(db, t)
            || (exists u :: u in db.saves && u != t && SharesEntry(db.saves[t].document, db.saves[u].document)
                            && SaveCanStep(db, u))
  {
    if db.saves[t].phase.Stored? {
      StoredCommits(db, t);
    } else if SaveBlocked(db.saves, t) {
      var u :| u in db.saves && u != t && db.saves[u].phase.Stored?
          && SharesEntry(db.saves[t].document, db.saves[u].document);
      StoredCommits(db, u);
    } else {
      assert DbNext(db, SaveStatement(t), db.(saves := db.saves[t := SaveAdvances(db.committed, db.saves[t])]));
    }
  }

  // ---- rows that are never waited for -------------------------------------------

  /** The hold rows a transaction has written and not yet committed. */
  function HoldRowsWritten(x: Txn): set<HoldId> {
    x.pending.holds.Keys
  }

  /** A release that reaches its hold row never finds it written by somebody else: every
      writer of that row holds the document row. */
  lemma HoldRowsAreUncontended(dbs: seq<Db>, labels: seq<DbLabel>, i: nat, t: nat, u: nat)
    requires IsDbRun(dbs, labels) && i < |dbs| && t in dbs[i].txns && u in dbs[i].txns && t != u
    requires dbs[i].txns[t].command.DoRelease? && dbs[i].txns[t].phase.Locked?
    requires var c := dbs[i].txns[t].command;
             c.holdId in dbs[i].committed.holds && dbs[i].committed.holds[c.holdId].documentId == c.d
    ensures dbs[i].txns[t].command.holdId !in HoldRowsWritten(dbs[i].txns[u])
  {
    var db := dbs[i];
    DbRunsAreSound(dbs, labels, i);
    assert TxnOk(db, t) && TxnOk(db, u) && Exclusive(db, t, u);
    assert db.txns[t].command.d in LockSet(db.txns[t]);
    assert db.txns[u].command.DoRelease? && db.txns[u].pending.holds != map[]
        ==> db.txns[u].command.d in LockSet(db.txns[u]);
  }

  /** A transition about to insert its row meets no other row, committed or not, with its
      source or its target: the unique indexes neither refuse nor block it. */
  lemma RelationshipRowsAreUncontended(dbs: seq<Db>, labels: seq<DbLabel>, i: nat, t: nat, u: nat)
    requires IsDbRun(dbs, labels) && i < |dbs| && t in dbs[i].txns && u in dbs[i].txns && t != u
    requires dbs[i].txns[t].command.DoApply? && dbs[i].txns[t].phase.Written?
    ensures !UniqueViolation(dbs[i].committed.relationships + dbs[i].txns[u].pending.relationships,
        dbs[i].txns[t].command.relationship)
  {
    DbRunsAreSound(dbs, labels, i);
    CommittedRowsDiffer(dbs[i], t);
    PendingRowsDiffer(dbs[i], t, u);
  }

  lemma PendingRowsDiffer(db: Db, t: nat, u: nat)
    requires DbInv(db) && t in db.txns && u in db.txns && t != u
    requires db.txns[t].command.DoApply? && db.txns[t].phase.Written?
    ensures !UniqueViolation(db.txns[u].pending.relationships, db.txns[t].command.relationship)
  {
    assert TxnOk(db, t) && TxnOk(db, u) && Exclusive(db, t, u);
    var r, others := db.txns[t].command.relationship, db.txns[u].pending.relationships;
    PendingRowsAreLocked(db.committed, db.txns[t]);
    PendingRowsAreLocked(db.committed, db.txns[u]);
    assert r in db.txns[t].pending.relationships;
    forall k | 0 <= k < |others| ensures others[k].source != r.source && others[k].target != r.target {
      assert others[k] in others;
    }
  }

  lemma CommittedRowsDiffer(db: Db, t: nat)
    requires DbInv(db) && t in db.txns && db.txns[t].command.DoApply? && db.txns[t].phase.Written?
    ensures !UniqueViolation(db.committed.relationships, db.txns[t].command.relationship)
  {
    assert TxnOk(db, t);
    NoUniqueViolation(db.committed, db.txns[t].command.relationship);
  }

  /** Both ends of a pending relationship row are rows its transaction has locked. */
  lemma PendingRowsAreLocked(s: Store, x: Txn)
    requires TxnInv(s, x)
    ensures forall r :: r in x.pending.relationships ==> r.source in LockSet(x) && r.target in LockSet(x)
  {
  }
}
