/** The service programs over PostgreSQL: threads whose repository calls are transactions of
    statements, interleaved with everything else. Every such run is a run of the atomic
    thread system, so what is proved of those runs holds of these. */
module PostgresCustody {
  import opened Records
  import opened Transitions
  import opened CustodyInvariants
  import opened PurgeEvaluation
  import opened Platforms
  import opened CustodyThreads
  import opened CustodyAssertions
  import opened CustodyRuns
  import opened CustodyTheorems
  import opened CustodyAccounts
  import opened DecisionActions
  import opened CustodyCalls
  import opened Postgres
  import opened PostgresRefinement
  import opened PostgresSaves
  import PostgresRuns

  /** The transaction that carries a thread's repository call. */
  datatype Opened = Opened(t: nat, env: Env)

  datatype PgSystem = PgSystem(db: Db, shared: Shared, threads: map<nat, CustodyThreads.Call>, open: map<nat, Opened>)

  function Abs(y: PgSystem): System {
    System(y.shared, y.threads)
  }

  /** `Outside`: a step that calls no guarded transition. `Opens`: a thread starts the
      transaction of its call. `Decides`: the statement or commit that settles the call; the
      thread goes on with its reply. `Waits`: any other statement. `Fails`: the transaction
      aborts and takes its caller with it, or sends a writer to its compensation. */
  datatype PgLabel =
    | Outside(l: Label)
    | Opens(tid: nat, t: nat, env: Env)
    | Waits(step: DbLabel)
    | Decides(tid: nat, step: DbLabel)
    | Fails(tid: nat, step: DbLabel, crash: bool)

  /** The reply a statement settles. A destruction claim that was refused is settled at once
      if its re-check is going to find no intent either, and by the re-check if it finds one. */
  ghost function StatementDecides(s: Store, x: Txn, x': Txn): Option<Reply> {
    match x'.phase
    case Ended(reply, _) => if x.phase.Rechecking? && reply == DocumentReply(None) then None else Some(reply)
    case Rechecking(_) =>
      if x.phase.Rechecking? || !x.command.DoBeginPurge?
         || (x.command.d in s.docs && s.docs[x.command.d].purgeStartedAt.Some?)
      then None else Some(DocumentReply(None))
    case _ => None
  }

  ghost function DecidedReply(db: Db, l: DbLabel, db': Db, t: nat, c: Command): Option<Reply> {
    match l
    case Commit(u) => if u == t && !c.DoSave? && t in db.txns && db.txns[t].phase.Written?
        then Some(db.txns[t].phase.reply) else None
    case Statement(u) =>
      if u == t && !c.DoSave? && t in db.txns && t in db'.txns
          then StatementDecides(db.committed, db.txns[t], db'.txns[t]) else None
    case CommitSave(u) => if u == t && c.DoSave? then Some(SaveReply(Ok(c.document))) else None
    case SaveStatement(u) =>
      if u == t && c.DoSave? && t in db'.saves && db'.saves[t].phase.SaveEnded? then Some(db'.saves[t].phase.reply)
          else None
    case _ => None
  }

  ghost predicate Minting(y: PgSystem, env: Env) {
    env.minted !in y.shared.issued && PlainId(env.minted)
  }

  ghost predicate PgNext(p: Platform, y: PgSystem, l: PgLabel, y': PgSystem) {
    match l
    case Outside(step) =>
      && Next(p, Abs(y), step, Abs(y')) && !step.Touch?
      && y'.db == y.db && y'.open == y.open && y'.shared.store == y.shared.store
      && (step.Step? ==> step.tid !in y.open && CallOf(p, y.threads[step.tid], step.env).None?)
      && (step.Crash? ==> step.tid !in y.open)
    case Opens(tid, t, env) =>
      && tid in y.threads && tid !in y.open && CallOf(p, y.threads[tid], env).Some?
      && var c := CallOf(p, y.threads[tid], env).value;
         && DbNext(y.db, if c.DoSave? then BeginSave(t, c.document) else BeginTxn(t, c), y'.db)
         && y' == y.(db := y'.db, open := y.open[tid := Opened(t, env)])
    case Waits(step) =>
      && !step.Commit? && !step.CommitSave? && !step.BeginTxn? && !step.BeginSave?
      && DbNext(y.db, step, y'.db) && y' == y.(db := y'.db)
    case Decides(tid, step) =>
      && tid in y.open && tid in y.threads && Minting(y, y.open[tid].env) && DbNext(y.db, step, y'.db)
      && var o, c := y.open[tid], y.threads[tid];
         && CallOf(p, c, o.env).Some?
         && var reply := DecidedReply(y.db, step, y'.db, o.t, CallOf(p, c, o.env).value);
            && reply.Some?
            && y' == PgSystem(y'.db, Told(Mint(y.shared, o.env.minted), c, y'.db.committed, reply.value),
                              y.threads[tid := Resume(c, o.env, reply.value)], y.open - {tid})
    case Fails(tid, step, crash) =>
      && tid in y.open && tid in y.threads && (step.Abort? || step.AbortSave?) && DbNext(y.db, step, y'.db)
      && var o, c := y.open[tid], y.threads[tid];
         if crash then
           y' == PgSystem(y'.db, y.shared.(orphans := y.shared.orphans + Own(c)), y.threads[tid := Crashed],
               y.open - {tid})
         else
           && c.Archiving? && c.write.Saving? && Minting(y, o.env)
           && y' == PgSystem(y'.db, Mint(y.shared, o.env.minted),
                             y.threads[tid := c.(write := Undoing(c.write.id, RepositoryFailure))], y.open - {tid})
  }

  // ---- what holds of every state ------------------------------------------------

  /** The open transaction runs the call its thread is waiting at. */
  ghost predicate OpenOk(p: Platform, y: PgSystem, tid: nat) {
    && tid in y.open && tid in y.threads && CallOf(p, y.threads[tid], y.open[tid].env).Some?
    && var c, t := CallOf(p, y.threads[tid], y.open[tid].env).value, y.open[tid].t;
       if c.DoSave? then t in y.db.saves && y.db.saves[t].document == c.document
       else t in y.db.txns && y.db.txns[t].command == c
  }

  ghost predicate PgInv(p: Platform, y: PgSystem) {
    && PostgresRuns.DbInv(y.db) && y.db.committed == y.shared.store
    && forall tid {:trigger OpenOk(p, y, tid)} :: tid in y.open ==> OpenOk(p, y, tid)
  }

  /** The system with one row saved again as it is. */
  ghost predicate Resaves(y: System, mid: System) {
    exists d, now :: d in y.shared.store.docs && mid == y.(shared := Touched(y.shared, d, now))
  }

  /** Zero, one or two steps of the atomic system, the first of two saving a row again. */
  ghost predicate Follows(p: Platform, y: System, y': System) {
    || y == y'
    || (exists l :: Next(p, y, l, y'))
    || (exists mid, l :: Resaves(y, mid) && Next(p, mid, l, y'))
  }

  lemma StatementKeepsCommand(db: Db, t: nat, db': Db)
    requires PostgresRuns.DbInv(db) && DbNext(db, Statement(t), db')
    ensures db'.txns[t].command == db.txns[t].command
  {
    assert PostgresRuns.TxnOk(db, t);
    PostgresRuns.StatementKnows(db, t, db'.txns[t]);
  }

  /** A database step keeps every transaction's command and every save's document. */
  lemma CommandsStay(db: Db, l: DbLabel, db': Db)
    requires DbNext(db, l, db') && (l.Statement? ==> db'.txns[l.t].command == db.txns[l.t].command)
    ensures forall t :: t in db.txns ==> t in db'.txns && db'.txns[t].command == db.txns[t].command
    ensures forall t :: t in db.saves ==> t in db'.saves && db'.saves[t].document == db.saves[t].document
  {
  }

  lemma OpensStay(p: Platform, y: PgSystem, l: DbLabel, y': PgSystem)
    requires PgInv(p, y) && DbNext(y.db, l, y'.db)
    requires forall tid :: tid in y'.open ==>
               tid in y.open && y'.open[tid] == y.open[tid] && tid in y.threads && tid in y'.threads
               && y'.threads[tid] == y.threads[tid]
    ensures forall tid {:trigger OpenOk(p, y', tid)} :: tid in y'.open ==> OpenOk(p, y', tid)
  {
    if l.Statement? { StatementKeepsCommand(y.db, l.t, y'.db); }
    CommandsStay(y.db, l, y'.db);
    forall tid | tid in y'.open ensures OpenOk(p, y', tid) { assert OpenOk(p, y, tid); }
  }

  lemma OpeningKeeps(p: Platform, y: PgSystem, tid: nat, t: nat, env: Env, y': PgSystem)
    requires PgInv(p, y) && PgNext(p, y, Opens(tid, t, env), y')
    ensures PgInv(p, y')
  {
    var c := CallOf(p, y.threads[tid], env).value;
    var l := if c.DoSave? then BeginSave(t, c.document) else BeginTxn(t, c);
    PostgresRuns.DbStepKeeps(y.db, l, y'.db);
    CommandsStay(y.db, l, y'.db);
    forall u | u in y'.open ensures OpenOk(p, y', u) { if u != tid { assert OpenOk(p, y, u); } }
  }

  // ---- a settled call is one atomic step ----------------------------------------

  /** The atomic step that answers `reply`, perhaps after a row was saved again as it was. */
  ghost predicate Atomic(s: Store, c: Command, s': Store, reply: Reply) {
    || Perform(s, c) == Answer(s', reply)
    || (exists d, now :: d in s.docs && Perform(Resaved(s, d, now), c) == Answer(s', reply))
  }

  function Resaved(s: Store, d: DocumentId, now: Instant): Store
    requires d in s.docs
  {
    s.(docs := s.docs[d := s.docs[d].(updatedAt := now)])
  }

  lemma CommitDecides(db: Db, t: nat, db': Db)
    requires PostgresRuns.DbInv(db) && DbNext(db, Commit(t), db')
    ensures Atomic(db.committed, db.txns[t].command, db'.committed, db.txns[t].phase.reply)
  {
    assert PostgresRuns.TxnOk(db, t);
    WrittenIsAtomic(db.committed, db.txns[t]);
  }

  lemma WrittenIsAtomic(s: Store, x: Txn)
    requires RowsInv(s) && TxnInv(s, x) && x.phase.Written?
    ensures Atomic(s, x.command, Overlay(s, x.pending), x.phase.reply)
  {
    ReadyIsAtomic(s, x.command);
  }

  lemma ReadyIsAtomic(s: Store, c: Command)
    requires RowsInv(s) && Ready(s, c) && WellFormed(c)
    ensures Atomic(s, c, Overlay(s, Writes(s, c)), Reported(s, c))
  {
    CommitIsExact(s, c);
    if Rewrites(s, c) { assert Freshened(s, c) == Resaved(s, c.d, c.now); }
  }

  lemma StatementSettles(db: Db, t: nat, db': Db)
    requires PostgresRuns.DbInv(db) && DbNext(db, Statement(t), db')
    requires StatementDecides(db.committed, db.txns[t], db'.txns[t]).Some?
    ensures db'.committed == db.committed
    ensures Atomic(db.committed, db.txns[t].command, db.committed,
        StatementDecides(db.committed, db.txns[t], db'.txns[t]).value)
  {
    var x, x' := db.txns[t], db'.txns[t];
    assert PostgresRuns.TxnOk(db, t);
    PostgresRuns.StatementKnows(db, t, x');
    PostgresRuns.StatementRemembers(db, t, x');
  }

  lemma SaveStatementSettles(db: Db, t: nat, db': Db)
    requires PostgresRuns.DbInv(db) && DbNext(db, SaveStatement(t), db') && db'.saves[t].phase.SaveEnded?
    ensures db'.committed == db.committed
    ensures Perform(db.committed, DoSave(db.saves[t].document)) == Answer(db.committed, db'.saves[t].phase.reply)
  {
    assert SaveOk(db.committed, db.saves, t);
    StatementKnows(db.committed, db.saves[t]);
  }

  lemma CommitSaveSettles(db: Db, t: nat, db': Db)
    requires PostgresRuns.DbInv(db) && DbNext(db, CommitSave(t), db')
    ensures Perform(db.committed, DoSave(db.saves[t].document))
        == Answer(db'.committed, SaveReply(Ok(db.saves[t].document)))
  {
    assert SaveOk(db.committed, db.saves, t);
    SaveCommits(db.committed, db.saves[t]);
  }

  lemma DecisionIsAtomic(p: Platform, y: PgSystem, tid: nat, l: DbLabel, y': PgSystem)
    requires PgInv(p, y) && PgNext(p, y, Decides(tid, l), y')
    ensures var o := y.open[tid];
            var c := CallOf(p, y.threads[tid], o.env).value;
            Atomic(y.db.committed, c, y'.db.committed, DecidedReply(y.db, l, y'.db, o.t, c).value)
  {
    assert OpenOk(p, y, tid);
    match l
    case Commit(t) => CommitDecides(y.db, t, y'.db);
    case Statement(t) => StatementSettles(y.db, t, y'.db);
    case CommitSave(t) => CommitSaveSettles(y.db, t, y'.db);
    case SaveStatement(t) => SaveStatementSettles(y.db, t, y'.db);
    case _ =>
  }

  /** The thread's step, from the store as it is or just resaved. */
  lemma CallStep(p: Platform, z: System, tid: nat, env: Env, c: Command, s': Store, reply: Reply, z': System)
    requires tid in z.threads && CallOf(p, z.threads[tid], env) == Some(c)
    requires env.minted !in z.shared.issued && PlainId(env.minted)
    requires Perform(z.shared.store, c) == Answer(s', reply)
    requires z' == System(Told(Mint(z.shared, env.minted), z.threads[tid], s', reply),
                          z.threads[tid := Resume(z.threads[tid], env, reply)])
    ensures Next(p, z, Step(tid, env), z')
  {
    StepIsCall(p, Mint(z.shared, env.minted), z.threads[tid], env);
  }

  lemma AtomicFollows(p: Platform, z: System, tid: nat, env: Env, c: Command, s': Store, reply: Reply, z': System)
    requires RowsInv(z.shared.store) && tid in z.threads && CallOf(p, z.threads[tid], env) == Some(c)
    requires env.minted !in z.shared.issued && PlainId(env.minted) && Atomic(z.shared.store, c, s', reply)
    requires z' == System(Told(Mint(z.shared, env.minted), z.threads[tid], s', reply),
                          z.threads[tid := Resume(z.threads[tid], env, reply)])
    ensures Follows(p, z, z')
  {
    if Perform(z.shared.store, c) == Answer(s', reply) {
      CallStep(p, z, tid, env, c, s', reply, z');
    } else {
      var d, now :| d in z.shared.store.docs && Perform(Resaved(z.shared.store, d, now), c) == Answer(s', reply);
      TouchIsOneColumn(z.shared.store, d, now);
      var mid := z.(shared := Touched(z.shared, d, now));
      assert Resaves(z, mid);
      CallStep(p, mid, tid, env, c, s', reply, z');
    }
  }

  lemma DecidesFollows(p: Platform, y: PgSystem, tid: nat, l: DbLabel, y': PgSystem)
    requires PgInv(p, y) && PgNext(p, y, Decides(tid, l), y')
    ensures Follows(p, Abs(y), Abs(y'))
  {
    var o := y.open[tid];
    var c := CallOf(p, y.threads[tid], o.env).value;
    DecisionIsAtomic(p, y, tid, l, y');
    AtomicFollows(p, Abs(y), tid, o.env, c, y'.db.committed, DecidedReply(y.db, l, y'.db, o.t, c).value, Abs(y'));
  }

  lemma DecidesKeeps(p: Platform, y: PgSystem, tid: nat, l: DbLabel, y': PgSystem)
    requires PgInv(p, y) && PgNext(p, y, Decides(tid, l), y')
    ensures PgInv(p, y')
  {
    PostgresRuns.DbStepKeeps(y.db, l, y'.db);
    forall u | u in y'.open ensures u in y.threads && y'.threads[u] == y.threads[u] { assert OpenOk(p, y, u); }
    OpensStay(p, y, l, y');
  }

  lemma FailsKeeps(p: Platform, y: PgSystem, tid: nat, l: DbLabel, crash: bool, y': PgSystem)
    requires PgInv(p, y) && PgNext(p, y, Fails(tid, l, crash), y')
    ensures PgInv(p, y')
  {
    PostgresRuns.DbStepKeeps(y.db, l, y'.db);
    forall u | u in y'.open ensures u in y.threads && y'.threads[u] == y.threads[u] { assert OpenOk(p, y, u); }
    OpensStay(p, y, l, y');
  }

  lemma FailsFollows(p: Platform, y: PgSystem, tid: nat, l: DbLabel, crash: bool, y': PgSystem)
    requires PgNext(p, y, Fails(tid, l, crash), y')
    ensures Follows(p, Abs(y), Abs(y'))
  {
    if crash {
      assert Next(p, Abs(y), Crash(tid), Abs(y'));
    } else {
      var env := y.open[tid].env.(fails := true);
      assert Next(p, Abs(y), Step(tid, env), Abs(y'));
    }
  }

  lemma OutsideKeeps(p: Platform, y: PgSystem, l: Label, y': PgSystem)
    requires PgInv(p, y) && PgNext(p, y, Outside(l), y')
    ensures PgInv(p, y')
  {
    forall tid | tid in y'.open ensures OpenOk(p, y', tid) { assert OpenOk(p, y, tid); }
  }

  lemma PgStepKeeps(p: Platform, y: PgSystem, l: PgLabel, y': PgSystem)
    requires PgInv(p, y) && PgNext(p, y, l, y')
    ensures PgInv(p, y') && Follows(p, Abs(y), Abs(y'))
  {
    match l
    case Outside(step) => OutsideKeeps(p, y, step, y');
    case Opens(tid, t, env) => OpeningKeeps(p, y, tid, t, env, y');
    case Waits(step) =>
      PostgresRuns.DbStepKeeps(y.db, step, y'.db);
      forall u | u in y'.open ensures u in y.threads { assert OpenOk(p, y, u); }
      OpensStay(p, y, step, y');
    case Decides(tid, step) =>
      DecidesKeeps(p, y, tid, step, y');
      DecidesFollows(p, y, tid, step, y');
    case Fails(tid, step, crash) =>
      FailsKeeps(p, y, tid, step, crash, y');
      FailsFollows(p, y, tid, step, crash, y');
  }

  // ---- runs ---------------------------------------------------------------------

  ghost predicate PgTakes(p: Platform, ys: seq<PgSystem>, ls: seq<PgLabel>, i: nat) {
    i < |ls| && i + 1 < |ys| && PgNext(p, ys[i], ls[i], ys[i + 1])
  }

  ghost predicate PgStart(y: PgSystem) {
    y.db == Db(EMPTY_STORE, map[], map[]) && y.open == map[] && Start(Abs(y))
  }

  ghost predicate IsPgRun(p: Platform, ys: seq<PgSystem>, ls: seq<PgLabel>) {
    && |ys| == |ls| + 1 && PgStart(ys[0])
    && forall i: nat {:trigger PgTakes(p, ys, ls, i)} :: i < |ls| ==> PgTakes(p, ys, ls, i)
  }

  lemma {:induction false} PgRunsAreSound(p: Platform, ys: seq<PgSystem>, ls: seq<PgLabel>, i: nat)
    requires IsPgRun(p, ys, ls) && i < |ys|
    ensures PgInv(p, ys[i])
    decreases i
  {
    if i == 0 { EmptyStoreIsSound(); }
    else {
      PgRunsAreSound(p, ys, ls, i - 1);
      assert PgTakes(p, ys, ls, i - 1);
      PgStepKeeps(p, ys[i - 1], ls[i - 1], ys[i]);
    }
  }

  /** The atomic state is that of moment `i`, or that with one row saved again. */
  ghost predicate Near(ys: seq<PgSystem>, i: nat, z: System) {
    i < |ys| && (z == Abs(ys[i]) || Resaves(Abs(ys[i]), z))
  }

  /** A run of the atomic system beside a PostgreSQL run: `at[i]` is where it reaches moment
      `i`, `near[k]` the moment its `k`-th state belongs to. */
  datatype Shadow = Shadow(states: seq<System>, labels: seq<Label>, at: seq<nat>, near: seq<nat>)

  ghost predicate ReachesAt(ys: seq<PgSystem>, w: Shadow, i: nat) {
    i < |ys| && i < |w.at| && w.at[i] < |w.states| && w.states[w.at[i]] == Abs(ys[i])
  }

  ghost predicate InOrder(w: Shadow, i: nat, j: nat) {
    i < |w.at| && j < |w.at| && (i <= j ==> w.at[i] <= w.at[j])
  }

  /** It passes through the state of every moment up to `n`, in order. */
  ghost predicate Passes(ys: seq<PgSystem>, n: nat, w: Shadow) {
    && |w.at| == n + 1 && w.at[n] == |w.states| - 1
    && (forall i: nat {:trigger ReachesAt(ys, w, i)} :: i <= n ==> ReachesAt(ys, w, i))
    && (forall i: nat, j: nat {:trigger InOrder(w, i, j)} :: i <= n && j <= n ==> InOrder(w, i, j))
  }

  ghost predicate BelongsTo(ys: seq<PgSystem>, w: Shadow, k: nat) {
    k < |w.near| && k < |w.states| && Near(ys, w.near[k], w.states[k])
  }

  /** A state reached by moment `j` belongs to a moment not later than `j`. */
  ghost predicate NotLater(w: Shadow, k: nat, j: nat) {
    k < |w.near| && j < |w.at| && (k <= w.at[j] ==> w.near[k] <= j)
  }

  /** Each of its states belongs to a moment not later than it. */
  ghost predicate Belongs(ys: seq<PgSystem>, n: nat, w: Shadow) {
    && |w.near| == |w.states| && |w.at| == n + 1
    && (forall k: nat {:trigger BelongsTo(ys, w, k)} :: k < |w.states| ==> BelongsTo(ys, w, k))
    && (forall k: nat, j: nat {:trigger NotLater(w, k, j)} :: k < |w.states| && j <= n ==> NotLater(w, k, j))
  }

  ghost predicate Shadows(p: Platform, ys: seq<PgSystem>, n: nat, w: Shadow) {
    n < |ys| && IsRun(p, w.states, w.labels) && Passes(ys, n, w) && Belongs(ys, n, w)
  }

  lemma RunGoesOn(p: Platform, states: seq<System>, labels: seq<Label>, l: Label, y': System)
    requires IsRun(p, states, labels) && Next(p, states[|states| - 1], l, y')
    ensures IsRun(p, states + [y'], labels + [l])
  {
    var states', labels' := states + [y'], labels + [l];
    forall i: nat | i < |labels'| ensures Takes(p, states', labels', i) {
      if i < |labels| { assert Takes(p, states, labels, i); }
    }
  }

  /** The shadow `w` with more states, reaching one more moment at the last of them. */
  ghost predicate Extends(w: Shadow, w': Shadow) {
    && |w.states| > 0 && w.states <= w'.states && w.near <= w'.near && |w'.near| == |w'.states|
    && w'.at == w.at + [|w'.states| - 1]
  }

  lemma PassesOn(ys: seq<PgSystem>, n: nat, w: Shadow, w': Shadow)
    requires Passes(ys, n, w) && Extends(w, w') && n + 1 < |ys| && w'.states[|w'.states| - 1] == Abs(ys[n + 1])
    ensures Passes(ys, n + 1, w')
  {
    forall i: nat | i <= n + 1 ensures ReachesAt(ys, w', i) {
      if i <= n { assert ReachesAt(ys, w, i) && w'.states[w.at[i]] == w.states[w.at[i]]; }
    }
    forall i: nat, j: nat | i <= n + 1 && j <= n + 1 ensures InOrder(w', i, j) {
      if i <= n { assert ReachesAt(ys, w, i); }
      if i <= n && j <= n { assert InOrder(w, i, j); }
    }
  }

  lemma BelongsOn(ys: seq<PgSystem>, n: nat, w: Shadow, w': Shadow)
    requires Passes(ys, n, w) && Belongs(ys, n, w) && Extends(w, w')
    requires forall k: nat {:trigger BelongsTo(ys, w', k)} :: |w.states| <= k < |w'.states| ==> BelongsTo(ys, w', k)
    requires forall k: nat :: |w.states| <= k < |w'.states| ==> w'.near[k] <= n + 1
    ensures Belongs(ys, n + 1, w')
  {
    forall k: nat | k < |w'.states| ensures BelongsTo(ys, w', k) {
      if k < |w.states| { assert BelongsTo(ys, w, k) && w'.states[k] == w.states[k] && w'.near[k] == w.near[k]; }
    }
    forall k: nat, j: nat | k < |w'.states| && j <= n + 1 ensures NotLater(w', k, j) {
      if j <= n {
        assert ReachesAt(ys, w, j);
        if k < |w.states| { assert NotLater(w, k, j) && w'.near[k] == w.near[k]; }
      } else if k < |w.states| {
        assert NotLater(w, k, n) && w'.near[k] == w.near[k];
      }
    }
  }

  datatype How = Stays | Steps(l: Label) | Resaving(d: DocumentId, now: Instant, next: Label)

  function Halfway(y: System, d: DocumentId, now: Instant): System
    requires d in y.shared.store.docs
  {
    y.(shared := Touched(y.shared, d, now))
  }

  ghost predicate FollowsBy(p: Platform, y: System, how: How, y': System) {
    match how
    case Stays => y == y'
    case Steps(l) => Next(p, y, l, y')
    case Resaving(d, now, l) => d in y.shared.store.docs && Next(p, Halfway(y, d, now), l, y')
  }

  lemma HowItFollows(p: Platform, y: System, y': System) returns (how: How)
    requires Follows(p, y, y')
    ensures FollowsBy(p, y, how, y')
  {
    if y == y' {
      how := Stays;
    } else if l :| Next(p, y, l, y') {
      how := Steps(l);
    } else {
      var mid, l :| Resaves(y, mid) && Next(p, mid, l, y');
      var d, now :| d in y.shared.store.docs && mid == y.(shared := Touched(y.shared, d, now));
      how := Resaving(d, now, l);
    }
  }

  lemma OneMoreState(p: Platform, states: seq<System>, labels: seq<Label>, l: Label, y': System)
    returns (states': seq<System>, labels': seq<Label>)
    requires IsRun(p, states, labels) && Next(p, states[|states| - 1], l, y')
    ensures IsRun(p, states', labels') && states <= states' && |states'| == |states| + 1 && states'[|states|] == y'
  {
    RunGoesOn(p, states, labels, l, y');
    states', labels' := states + [y'], labels + [l];
  }

  lemma ShadowGrows(p: Platform, ys: seq<PgSystem>, n: nat, w: Shadow, w': Shadow)
    requires Shadows(p, ys, n, w) && n + 1 < |ys| && IsRun(p, w'.states, w'.labels) && Extends(w, w')
    requires w'.states[|w'.states| - 1] == Abs(ys[n + 1])
    requires forall k: nat {:trigger BelongsTo(ys, w', k)} :: |w.states| <= k < |w'.states| ==> BelongsTo(ys, w', k)
    requires forall k: nat :: |w.states| <= k < |w'.states| ==> w'.near[k] <= n + 1
    ensures Shadows(p, ys, n + 1, w')
  {
    PassesOn(ys, n, w, w');
    BelongsOn(ys, n, w, w');
  }

  lemma ShadowStays(p: Platform, ys: seq<PgSystem>, n: nat, w: Shadow) returns (w': Shadow)
    requires Shadows(p, ys, n, w) && n + 1 < |ys| && Abs(ys[n]) == Abs(ys[n + 1])
    ensures Shadows(p, ys, n + 1, w')
  {
    w' := w.(at := w.at + [|w.states| - 1]);
    assert ReachesAt(ys, w, n);
    ShadowGrows(p, ys, n, w, w');
  }

  lemma ShadowTakes(p: Platform, ys: seq<PgSystem>, n: nat, w: Shadow, states: seq<System>, labels: seq<Label>)
    returns (w': Shadow)
    requires Shadows(p, ys, n, w) && n + 1 < |ys| && IsRun(p, states, labels)
    requires w.states <= states && |states| == |w.states| + 1 && states[|w.states|] == Abs(ys[n + 1])
    ensures Shadows(p, ys, n + 1, w')
  {
    w' := Shadow(states, labels, w.at + [|w.states|], w.near + [n + 1]);
    assert ReachesAt(ys, w, n) && BelongsTo(ys, w', |w.states|);
    ShadowGrows(p, ys, n, w, w');
  }

  lemma ShadowResaves(p: Platform, ys: seq<PgSystem>, n: nat, w: Shadow, states: seq<System>, labels: seq<Label>)
    returns (w': Shadow)
    requires Shadows(p, ys, n, w) && n + 1 < |ys| && IsRun(p, states, labels)
    requires w.states <= states && |states| == |w.states| + 2 && states[|w.states| + 1] == Abs(ys[n + 1])
    requires Near(ys, n, states[|w.states|])
    ensures Shadows(p, ys, n + 1, w')
  {
    var m := |w.states|;
    w' := Shadow(states, labels, w.at + [m + 1], w.near + [n, n + 1]);
    assert ReachesAt(ys, w, n) && BelongsTo(ys, w', m) && BelongsTo(ys, w', m + 1);
    ShadowGrows(p, ys, n, w, w');
  }

  lemma ShadowGoesOn(p: Platform, ys: seq<PgSystem>, n: nat, w: Shadow, how: How) returns (w': Shadow)
    requires Shadows(p, ys, n, w) && n + 1 < |ys| && FollowsBy(p, Abs(ys[n]), how, Abs(ys[n + 1]))
    ensures Shadows(p, ys, n + 1, w')
  {
    assert ReachesAt(ys, w, n);
    match how {
      case Stays => w' := ShadowStays(p, ys, n, w);
      case Steps(l) =>
        var states, labels := OneMoreState(p, w.states, w.labels, l, Abs(ys[n + 1]));
        w' := ShadowTakes(p, ys, n, w, states, labels);
      case Resaving(d, now, l) =>
        var states, labels := TwoMoreStates(p, Abs(ys[n]), w.states, w.labels, d, now, l, Abs(ys[n + 1]));
        w' := ShadowResaves(p, ys, n, w, states, labels);
    }
  }

  lemma TwoMoreStates(p: Platform, y: System, states: seq<System>, labels: seq<Label>, d: DocumentId, now: Instant,
                      l: Label, y': System)
    returns (states': seq<System>, labels': seq<Label>)
    requires IsRun(p, states, labels) && states[|states| - 1] == y && FollowsBy(p, y, Resaving(d, now, l), y')
    ensures IsRun(p, states', labels') && states <= states' && |states'| == |states| + 2
    ensures Resaves(y, states'[|states|]) && states'[|states| + 1] == y'
  {
    var mid := Halfway(y, d, now);
    states', labels' := OneMoreState(p, states, labels, Touch(d, now), mid);
    states', labels' := OneMoreState(p, states', labels', l, y');
  }

  /** Every run of service calls over PostgreSQL transactions passes, in order, through
      states of one run of the atomic thread system: the same threads at the same program
      points, the same objects, and the committed store to the last column. */
  lemma {:induction false} PostgresRunsAreCustodyRuns(p: Platform, ys: seq<PgSystem>, ls: seq<PgLabel>, n: nat)
    returns (w: Shadow)
    requires IsPgRun(p, ys, ls) && n < |ys|
    ensures Shadows(p, ys, n, w)
    decreases n
  {
    if n == 0 {
      w := FirstShadow(p, ys);
    } else {
      var before := PostgresRunsAreCustodyRuns(p, ys, ls, n - 1);
      var how := PgMomentFollows(p, ys, ls, n - 1);
      w := ShadowGoesOn(p, ys, n - 1, before, how);
    }
  }

  lemma FirstShadow(p: Platform, ys: seq<PgSystem>) returns (w: Shadow)
    requires |ys| > 0 && PgStart(ys[0])
    ensures Shadows(p, ys, 0, w)
  {
    w := Shadow([Abs(ys[0])], [], [0], [0]);
    assert ReachesAt(ys, w, 0) && BelongsTo(ys, w, 0);
  }

  lemma PgMomentFollows(p: Platform, ys: seq<PgSystem>, ls: seq<PgLabel>, i: nat) returns (how: How)
    requires IsPgRun(p, ys, ls) && i < |ls|
    ensures FollowsBy(p, Abs(ys[i]), how, Abs(ys[i + 1]))
  {
    PgRunsAreSound(p, ys, ls, i);
    assert PgTakes(p, ys, ls, i);
    PgStepKeeps(p, ys[i], ls[i], ys[i + 1]);
    how := HowItFollows(p, Abs(ys[i]), Abs(ys[i + 1]));
  }

  // ---- what carries over --------------------------------------------------------

  /** Over PostgreSQL too, with crashes and aborts anywhere: absent bytes imply a recorded
      intent; PURGED implies intent, instant and absent bytes; present bytes are the archived
      ones; an intent implies a reached retention date and excludes every active hold. */
  lemma PostgresDestructionIsTruthful(p: Platform, ys: seq<PgSystem>, ls: seq<PgLabel>, i: nat, d: DocumentId)
    requires IsPgRun(p, ys, ls) && i < |ys| && d in ys[i].db.committed.docs
    ensures var s, x := ys[i].shared, ys[i].db.committed.docs[d];
            && s.store == ys[i].db.committed
            && (x.storageKey !in s.objects ==> x.purgeStartedAt.Some?)
            && (x.purgeStatus == Purged ==> x.purgeStartedAt.Some? && x.purgedAt.Some? && x.storageKey !in s.objects)
            && (x.storageKey in s.objects ==> BytesIntact(s, d))
            && (x.purgeStartedAt.Some? ==>
                  RetentionElapsedOn(x, s.today) && ActiveHolds(s.store.holds, d) == {})
  {
    var w := PostgresRunsAreCustodyRuns(p, ys, ls, i);
    assert ReachesAt(ys, w, i);
    PgRunsAreSound(p, ys, ls, i);
    DestructionIsTruthful(p, w.states, w.labels, w.at[i], d);
  }

  /** Between any two moments nothing archived, destroyed or linked reverts. */
  lemma PostgresOnlyAccumulates(p: Platform, ys: seq<PgSystem>, ls: seq<PgLabel>, i: nat, j: nat)
    requires IsPgRun(p, ys, ls) && i <= j < |ys|
    ensures Later(ys[i].shared, ys[j].shared)
  {
    var w := PostgresRunsAreCustodyRuns(p, ys, ls, j);
    assert ReachesAt(ys, w, i) && ReachesAt(ys, w, j) && InOrder(w, i, j);
    RunsOnlyAccumulate(p, w.states, w.labels, w.at[i], w.at[j]);
  }

  /** Stored keys are exactly those of archived documents no purge has erased, writers still
      in flight, and objects failed writers left. */
  lemma PostgresStorageIsConserved(p: Platform, ys: seq<PgSystem>, ls: seq<PgLabel>, i: nat)
    requires IsPgRun(p, ys, ls) && i < |ys|
    ensures ys[i].shared.objects.Keys
            == DocumentKeys(ys[i].shared) + FlightKeys(Abs(ys[i])) + OrphanKeys(ys[i].shared)
  {
    var w := PostgresRunsAreCustodyRuns(p, ys, ls, i);
    assert ReachesAt(ys, w, i);
    StorageIsConserved(p, w.states, w.labels, w.at[i]);
  }

  /** Saving a row again changes nothing a decision speaks of. */
  lemma ResavesStayTrue(y: System, mid: System, tid: nat, d: DocumentId, action: Action)
    requires RowsInv(y.shared.store) && Resaves(y, mid) && TrueDuring(mid, tid, d, action)
    ensures TrueDuring(y, tid, d, action)
  {
    var e, now :| e in y.shared.store.docs && mid == y.(shared := Touched(y.shared, e, now));
    TouchIsOneColumn(y.shared.store, e, now);
  }

  lemma NearMomentsAreTrue(p: Platform, ys: seq<PgSystem>, ls: seq<PgLabel>, i: nat, z: System, tid: nat,
                           d: DocumentId, action: Action)
    requires IsPgRun(p, ys, ls) && Near(ys, i, z) && TrueDuring(z, tid, d, action)
    ensures TrueDuring(Abs(ys[i]), tid, d, action)
  {
    PgRunsAreSound(p, ys, ls, i);
    if z != Abs(ys[i]) { ResavesStayTrue(Abs(ys[i]), z, tid, d, action); }
  }

  /** Every newly signed decision was true of a committed PostgreSQL state at some moment of
      its own call, whatever statements, commits, aborts and crashes came in between. */
  lemma PostgresDecisionsAreTruthful(p: Platform, ys: seq<PgSystem>, ls: seq<PgLabel>, j: nat, tid: nat)
    requires IsPgRun(p, ys, ls) && j < |ys| && tid in ys[j].threads
    requires ys[j].threads[tid].Purging? && ys[j].threads[tid].purge.Signed?
    ensures exists i: nat ::
              i <= j && TrueDuring(Abs(ys[i]), tid, ys[j].threads[tid].d, ys[j].threads[tid].purge.action)
  {
    var d, action := ys[j].threads[tid].d, ys[j].threads[tid].purge.action;
    var w := PostgresRunsAreCustodyRuns(p, ys, ls, j);
    assert ReachesAt(ys, w, j);
    DecisionsAreTruthful(p, w.states, w.labels, w.at[j], tid);
    var k: nat :| k <= w.at[j] && TrueDuring(w.states[k], tid, d, action);
    assert BelongsTo(ys, w, k) && NotLater(w, k, j);
    NearMomentsAreTrue(p, ys, ls, w.near[k], w.states[k], tid, d, action);
  }

  /** All purge calls for a document that report destruction report one purge instant. */
  lemma PostgresPurgesAnswerOneInstant(p: Platform, ys: seq<PgSystem>, ls: seq<PgLabel>, i: nat, j: nat,
                                       tid: nat, tid': nat, d: DocumentId, m: Document, m': Document)
    requires IsPgRun(p, ys, ls) && i <= j < |ys|
    requires PurgeAnswered(Abs(ys[i]), tid, d, m) && PurgeAnswered(Abs(ys[j]), tid', d, m')
    ensures m.purgedAt.Some? && m'.purgedAt == m.purgedAt
  {
    var w := PostgresRunsAreCustodyRuns(p, ys, ls, j);
    assert ReachesAt(ys, w, i) && ReachesAt(ys, w, j) && InOrder(w, i, j);
    PurgesAnswerOneInstant(p, w.states, w.labels, w.at[i], w.at[j], tid, tid', d, m, m');
  }

  /** The step that commits the release of hold `h`. */
  ghost predicate CommitsRelease(y: PgSystem, l: PgLabel, h: HoldId) {
    l.Decides? && PostgresRuns.CommitsReleaseOf(y.db, l.step, h)
  }

  lemma OnlyDecisionsWrite(p: Platform, y: PgSystem, l: PgLabel, y': PgSystem)
    requires PgNext(p, y, l, y') && !l.Decides?
    ensures y'.shared.store == y.shared.store
  {
  }

  lemma DecisionKeepsHold(p: Platform, y: PgSystem, tid: nat, l: DbLabel, y': PgSystem, h: HoldId)
    requires PgInv(p, y) && PgNext(p, y, Decides(tid, l), y') && HoldActiveIn(y.shared.store, h)
    requires !PostgresRuns.CommitsReleaseOf(y.db, l, h)
    ensures HoldActiveIn(y'.shared.store, h)
  {
    PostgresRuns.HoldOutlastsDbStep(y.db, l, y'.db, h);
  }

  lemma HoldStaysOneStep(p: Platform, ys: seq<PgSystem>, ls: seq<PgLabel>, i: nat, h: HoldId)
    requires IsPgRun(p, ys, ls) && i < |ls| && HoldActiveIn(ys[i].shared.store, h) && !CommitsRelease(ys[i], ls[i], h)
    ensures HoldActiveIn(ys[i + 1].shared.store, h)
  {
    PgRunsAreSound(p, ys, ls, i);
    assert PgTakes(p, ys, ls, i);
    if ls[i].Decides? { DecisionKeepsHold(p, ys[i], ls[i].tid, ls[i].step, ys[i + 1], h); }
    else { OnlyDecisionsWrite(p, ys[i], ls[i], ys[i + 1]); }
  }

  lemma {:induction false} HoldsStay(p: Platform, ys: seq<PgSystem>, ls: seq<PgLabel>, i: nat, j: nat, h: HoldId)
    requires IsPgRun(p, ys, ls) && i <= j < |ys| && HoldActiveIn(ys[i].shared.store, h)
    requires forall k :: i <= k < j ==> !CommitsRelease(ys[k], ls[k], h)
    ensures HoldActiveIn(ys[j].shared.store, h)
    decreases j
  {
    if i < j {
      HoldsStay(p, ys, ls, i, j - 1, h);
      HoldStaysOneStep(p, ys, ls, j - 1, h);
    }
  }

  /** Once a hold is committed in PostgreSQL, the archived bytes stay present and unchanged,
      and no destruction intent is committed, until a release of that hold commits - whatever
      statements, calls, crashes and aborts come in between. */
  lemma PostgresHoldsPreserveBytes(p: Platform, ys: seq<PgSystem>, ls: seq<PgLabel>, i: nat, j: nat, h: HoldId)
    requires IsPgRun(p, ys, ls) && i <= j < |ys| && HoldActiveIn(ys[i].db.committed, h)
    requires forall k :: i <= k < j ==> !CommitsRelease(ys[k], ls[k], h)
    ensures h in ys[j].db.committed.holds
    ensures var d := ys[i].db.committed.holds[h].documentId;
            && BytesIntact(ys[i].shared, d) && BytesIntact(ys[j].shared, d)
            && ys[j].shared.archived[d] == ys[i].shared.archived[d]
            && d in ys[j].db.committed.docs && ys[j].db.committed.docs[d].purgeStartedAt.None?
  {
    PgRunsAreSound(p, ys, ls, i);
    PgRunsAreSound(p, ys, ls, j);
    HoldsStay(p, ys, ls, i, j, h);
    var w := PostgresRunsAreCustodyRuns(p, ys, ls, j);
    assert ReachesAt(ys, w, i) && ReachesAt(ys, w, j) && InOrder(w, i, j);
    ActiveMeansBytes(p, w.states, w.labels, w.at[i], h);
    ActiveMeansBytes(p, w.states, w.labels, w.at[j], h);
    RunsOnlyAccumulate(p, w.states, w.labels, w.at[i], w.at[j]);
    assert HoldRowEvolves(ys[i].shared.store, ys[j].shared.store, h);
  }
}
