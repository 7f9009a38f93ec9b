/** `PostgresArchiveDocumentRepository`: each repository call is a transaction of SQL
    statements under READ COMMITTED (PostgreSQL manual, section 13.2.1). Row locks are
    taken by UPDATE and SELECT ... FOR UPDATE and kept to the end of the transaction;
    writes stay uncommitted until COMMIT; a statement sees what was committed when it
    started, plus its own transaction's writes; a blocked UPDATE re-checks the columns of
    the row it waited for, while its subqueries keep the old snapshot. */
module Postgres {
  import opened Records
  import opened Transitions
  import opened CustodyInvariants

  // ---- the order in which transitions lock two rows -----------------------------

  /** `sorted` on identifiers: lexicographic. */
  predicate Before(a: string, b: string)
    decreases |a|
  {
    if b == "" then false
    else if a == "" then true
    else if a[0] != b[0] then a[0] < b[0]
    else Before(a[1..], b[1..])
  }

  lemma {:induction false} BeforeIsTotal(a: string, b: string)
    ensures Before(a, b) || Before(b, a) || a == b
    decreases |a|
  {
    if a != "" && b != "" && a[0] == b[0] {
      BeforeIsTotal(a[1..], b[1..]);
      if a[1..] == b[1..] { assert a == [a[0]] + a[1..] == [b[0]] + b[1..] == b; }
    }
  }

  lemma {:induction false} BeforeIsOrder(a: string, b: string, c: string)
    ensures !Before(a, a)
    ensures Before(a, b) && Before(b, c) ==> Before(a, c)
    decreases |a|
  {
    if a != "" {
      if b != "" && c != "" { BeforeIsOrder(a[1..], b[1..], c[1..]); }
      else { BeforeIsOrder(a[1..], a[1..], a[1..]); }
    }
  }

  // ---- transactions -------------------------------------------------------------

  datatype Pending = Pending(docs: map<DocumentId, Document>, holds: map<HoldId, Hold>,
                             relationships: seq<Relationship>)

  const NOTHING := Pending(map[], map[], [])

  /** `Rechecking` and `Ended` remember, as history, the committed state their answer was
      decided on. */
  datatype Phase =
    | Begun
    | Targeting(snapshot: Store, second: bool)
    | LockedOne
    | Rechecking(at: Store)
    | Locked
    | Inserted
    | Written(reply: Reply)
    | Ended(reply: Reply, at: Store)
    | Aborted

  datatype Txn = Txn(command: Command, phase: Phase, pending: Pending)

  /** `save`: a read by request id in a transaction of its own, then one INSERT under the
      primary key and the unique indexes on request id and storage key. */
  datatype SavePhase =
    | Looking
    | Inserting
    | Stored
    | SaveEnded(reply: Reply, at: Store)
    | SaveAborted

  datatype SaveTxn = SaveTxn(document: Document, phase: SavePhase)

  datatype Db = Db(committed: Store, txns: map<nat, Txn>, saves: map<nat, SaveTxn>)

  function Overlay(s: Store, p: Pending): Store {
    s.(docs := s.docs + p.docs, holds := s.holds + p.holds, relationships := s.relationships + p.relationships)
  }

  function FirstRow(c: Command): DocumentId
    requires !c.DoSave?
  {
    if c.DoApply? then (if Before(c.target, c.source) then c.target else c.source) else c.d
  }

  function SecondRow(c: Command): DocumentId
    requires c.DoApply?
  {
    if Before(c.target, c.source) then c.source else c.target
  }

  function Rows(c: Command): set<DocumentId>
    requires !c.DoSave?
  {
    if c.DoApply? then {c.source, c.target} else {c.d}
  }

  /** The document rows a transaction has locked. */
  function LockSet(x: Txn): set<DocumentId>
    requires !x.command.DoSave?
  {
    match x.phase
    case Targeting(_, second) => if second then {FirstRow(x.command)} else {}
    case LockedOne => {FirstRow(x.command)}
    case Locked => Rows(x.command)
    case Inserted => Rows(x.command)
    case Written(_) => Rows(x.command)
    case _ => {}
  }

  /** The WHERE clause of the statement that takes the row lock. */
  function Where(c: Command, row: Document, holds: map<HoldId, Hold>): bool {
    match c
    case DoBeginPurge(d, _) => row.purgeStartedAt.None? && row.holdStatus != Active && ActiveHolds(holds, d) == {}
    case DoMarkEligible(d, _, _) =>
      row.purgeStartedAt.None? && row.purgeStatus != Purged && row.holdStatus != Active && ActiveHolds(holds, d) == {}
    case DoMarkNotEligible(_, _) => row.purgeStartedAt.None? && row.purgeStatus != Purged
    case DoComplete(_, _, _) => row.purgeStartedAt.Some?
    case DoAdmit(_, _, _, _) => row.purgeStartedAt.None?
    case _ => true
  }

  /** The SET clause of that statement; SELECT ... FOR UPDATE sets nothing. */
  function Updated(c: Command, row: Document): Document {
    match c
    case DoBeginPurge(_, at) => row.(purgeStartedAt := Some(at), updatedAt := at)
    case DoMarkEligible(_, at, now) =>
      var first := if row.purgeEligibleAt.Some? then row.purgeEligibleAt else Some(at);
      row.(purgeStatus := Eligible, purgeEligibleAt := first, updatedAt := now)
    case DoMarkNotEligible(_, now) => row.(purgeStatus := NotEligible, updatedAt := now)
    case DoComplete(_, at, now) =>
      row.(purgeStatus := Purged, purgedAt := if row.purgedAt.Some? then row.purgedAt else Some(at), updatedAt := now)
    case DoAdmit(_, _, _, now) => row.(holdStatus := Active, updatedAt := now)
    case _ => row
  }

  predicate SingleStatement(c: Command) {
    c.DoBeginPurge? || c.DoMarkEligible? || c.DoMarkNotEligible? || c.DoComplete?
  }

  function Refusal(c: Command): Reply {
    match c
    case DoRelease(_, _, _, _) => ReleaseReply(None)
    case DoApply(_, _, _, _, _) => LinkReply(Err(DocumentNotFound))
    case _ => DocumentReply(None)
  }

  /** The lock-taking statement matched no row. */
  function NoRow(x: Txn, s: Store): Txn {
    x.(phase := if x.command.DoBeginPurge? then Rechecking(s) else Ended(Refusal(x.command), s))
  }

  /** The lock is granted: the row's current columns are checked again, the subquery is not. */
  function Granted(x: Txn, s: Store, snapshot: Store, second: bool): Txn
    requires !x.command.DoSave? && (second ==> x.command.DoApply?)
  {
    var c := x.command;
    var d := if second then SecondRow(c) else FirstRow(c);
    if d !in s.docs || !Where(c, s.docs[d], snapshot.holds) then NoRow(x, s)
    else if SingleStatement(c) then
      x.(phase := Written(DocumentReply(Some(Updated(c, s.docs[d])))),
         pending := NOTHING.(docs := map[d := Updated(c, s.docs[d])]))
    else if c.DoAdmit? then x.(phase := Locked, pending := NOTHING.(docs := map[d := Updated(c, s.docs[d])]))
    else if c.DoApply? && !second && c.source != c.target then x.(phase := LockedOne)
    else x.(phase := Locked)
  }

  /** `_REFRESH_HOLD_SUMMARY_SQL` over what the transaction can see. */
  function Recount(view: Store, d: DocumentId, now: Instant): Option<Document>
    requires d in view.docs
  {
    var count := |ActiveHolds(view.holds, d)|;
    var status := if count > 0 then Active else Clear;
    if view.docs[d].holdStatus == status && view.docs[d].holdCount == count then None
    else Some(view.docs[d].(holdStatus := status, holdCount := count, updatedAt := now))
  }

  function Refreshed(x: Txn, view: Store, d: DocumentId, now: Instant): Pending
    requires d in view.docs
  {
    match Recount(view, d, now)
    case None => x.pending
    case Some(row) => x.pending.(docs := x.pending.docs[d := row])
  }

  /** The one-successor and one-origin indexes. */
  predicate UniqueViolation(rs: seq<Relationship>, r: Relationship) {
    exists i :: 0 <= i < |rs| && (rs[i].source == r.source || rs[i].target == r.target)
  }

  function ApplyLocked(x: Txn, view: Store): Txn
    requires x.command.DoApply? && x.command.source in view.docs && x.command.target in view.docs
  {
    var c := x.command;
    var from, to := view.docs[c.source], view.docs[c.target];
    var recorded := FindRelationship(view.relationships, c.source, c.target, c.kind);
    if PointersAgree(from, to, c.kind) && recorded.Some? then
      x.(phase := Ended(LinkReply(Ok(Linked(recorded.value, from, to))), view))
    else
      match LifecycleRefusal(from, to)
      case Some(error) => x.(phase := Ended(LinkReply(Err(error)), view))
      case None =>
        if UniqueViolation(view.relationships, c.relationship) then
          x.(phase := Ended(LinkReply(Err(SupersessionConflict)), view))
        else
          var from' := from.(supersededBy := Some(c.target), updatedAt := c.now);
          var to' := WithOrigin(to, c.kind, c.source).(updatedAt := c.now);
          x.(phase := Written(LinkReply(Ok(Linked(c.relationship, from', to')))),
             pending := Pending(map[c.source := from'][c.target := to'], map[], [c.relationship]))
  }

  function AfterLock(x: Txn, view: Store): Txn
    requires !x.command.DoSave? && Rows(x.command) <= view.docs.Keys
  {
    match x.command
    case DoAdmit(_, id, hold, _) => x.(phase := Inserted, pending := x.pending.(holds := map[id := hold]))
    case DoRefresh(d, now) =>
      var p := Refreshed(x, view, d, now);
      x.(pending := p, phase := Written(DocumentReply(Some(if d in p.docs then p.docs[d] else view.docs[d]))))
    case DoRelease(d, id, release, _) =>
      if id !in view.holds || view.holds[id].documentId != d then x.(phase := Ended(ReleaseReply(None), view))
      else if view.holds[id].status == Active then
        x.(phase := Inserted, pending := x.pending.(holds := map[id := Released(view.holds[id], release)]))
      else x.(phase := Inserted)
    case DoApply(_, _, _, _, _) => ApplyLocked(x, view)
    case _ => x
  }

  function AfterInsert(x: Txn, view: Store): Txn
    requires !x.command.DoSave? && Rows(x.command) <= view.docs.Keys
    requires x.command.DoRelease? ==> x.command.holdId in view.holds
  {
    match x.command
    case DoAdmit(d, _, _, now) =>
      var row := view.docs[d].(holdCount := |ActiveHolds(view.holds, d)|, updatedAt := now);
      x.(phase := Written(DocumentReply(Some(row))), pending := x.pending.(docs := x.pending.docs[d := row]))
    case DoRelease(d, id, _, now) =>
      var p := Refreshed(x, view, d, now);
      var row := if d in p.docs then p.docs[d] else view.docs[d];
      x.(pending := p, phase := Written(ReleaseReply(Some((view.holds[id], row)))))
    case _ => x
  }

  // ---- steps --------------------------------------------------------------------

  datatype DbLabel =
    | BeginTxn(t: nat, command: Command)
    | Statement(t: nat)
    | Commit(t: nat)
    | Abort(t: nat)
    | BeginSave(t: nat, document: Document)
    | SaveStatement(t: nat)
    | CommitSave(t: nat)
    | AbortSave(t: nat)

  predicate Finished(x: Txn) {
    x.phase.Ended? || x.phase.Aborted?
  }

  ghost predicate WellFormed(c: Command) {
    !c.DoSave?
    && (c.DoAdmit? ==> c.hold.documentId == c.d && c.hold.status == Active)
    && (c.DoApply? ==> RecordsTransition(c.relationship, c.source, c.target, c.kind))
  }

  function MintedBy(c: Command): set<string> {
    match c
    case DoAdmit(_, id, _, _) => {id}
    case DoApply(_, _, _, r, _) => {r.id}
    case _ => {}
  }

  /** The lock of `d` is free for transaction `t`. */
  ghost predicate Free(db: Db, t: nat, d: DocumentId) {
    forall u :: u in db.txns && u != t && !db.txns[u].command.DoSave? ==> d !in LockSet(db.txns[u])
  }

  /** One statement of an open transaction; only a lock request can have to wait. */
  ghost predicate Advances(db: Db, t: nat, x': Txn)
    requires t in db.txns && !db.txns[t].command.DoSave?
  {
    var x := db.txns[t];
    var c := x.command;
    var view := Overlay(db.committed, x.pending);
    match x.phase
    case Begun =>
      var d := FirstRow(c);
      x' == if d in db.committed.docs && Where(c, db.committed.docs[d], db.committed.holds)
            then x.(phase := Targeting(db.committed, false)) else NoRow(x, db.committed)
    case Targeting(snapshot, second) =>
      (second ==> c.DoApply?) && Free(db, t, if second then SecondRow(c) else FirstRow(c))
      && x' == Granted(x, db.committed, snapshot, second)
    case LockedOne =>
      c.DoApply? && x' == if SecondRow(c) in db.committed.docs then x.(phase := Targeting(db.committed, true))
          else NoRow(x, db.committed)
    case Rechecking(at) =>
      c.DoBeginPurge?
      && x' == if c.d in db.committed.docs && db.committed.docs[c.d].purgeStartedAt.Some?
               then x.(phase := Ended(DocumentReply(Some(db.committed.docs[c.d])), db.committed))
               else x.(phase := Ended(DocumentReply(None), at))
    case Locked => Rows(c) <= view.docs.Keys && x' == AfterLock(x, view)
    case Inserted => Rows(c) <= view.docs.Keys && (c.DoRelease? ==> c.holdId in view.holds)
        && x' == AfterInsert(x, view)
    case _ => false
  }

  ghost predicate DbNext(db: Db, l: DbLabel, db': Db) {
    match l
    case BeginTxn(t, c) =>
      && t !in db.txns && WellFormed(c) && Admissible(db.committed, c)
      && (forall u :: u in db.txns ==> MintedBy(db.txns[u].command) !! MintedBy(c))
      && db' == db.(txns := db.txns[t := Txn(c, Begun, NOTHING)])
    case Statement(t) =>
      && t in db.txns && !db.txns[t].command.DoSave?
      && t in db'.txns && db' == db.(txns := db.txns[t := db'.txns[t]])
      && Advances(db, t, db'.txns[t])
    case Commit(t) =>
      && t in db.txns && db.txns[t].phase.Written?
      && db' == db.(committed := Overlay(db.committed, db.txns[t].pending),
                    txns := db.txns[t := Txn(db.txns[t].command, Ended(db.txns[t].phase.reply, db.committed), NOTHING)])
    case Abort(t) =>
      && t in db.txns && !Finished(db.txns[t])
      && db' == db.(txns := db.txns[t := Txn(db.txns[t].command, Aborted, NOTHING)])
    case BeginSave(t, x) =>
      && t !in db.saves && NewlyMinted(db.committed, db.saves, x)
      && db' == db.(saves := db.saves[t := SaveTxn(x, Looking)])
    case SaveStatement(t) =>
      && t in db.saves && !SaveBlocked(db.saves, t) && (db.saves[t].phase.Looking? || db.saves[t].phase.Inserting?)
      && db' == db.(saves := db.saves[t := SaveAdvances(db.committed, db.saves[t])])
    case CommitSave(t) =>
      && t in db.saves && db.saves[t].phase.Stored?
      && var x := db.saves[t].document;
         db' == db.(committed := Save(db.committed, x).store,
                    saves := db.saves[t := SaveTxn(x, SaveEnded(SaveReply(Ok(x)), db.committed))])
    case AbortSave(t) =>
      && t in db.saves && !SaveFinished(db.saves[t])
      && db' == db.(saves := db.saves[t := SaveTxn(db.saves[t].document, SaveAborted)])
  }

  // ---- saves --------------------------------------------------------------------

  predicate SaveFinished(x: SaveTxn) {
    x.phase.SaveEnded? || x.phase.SaveAborted?
  }

  /** The writer's document: a new record whose identifier, and the storage key built from
      it, no other document and no other open save has. */
  ghost predicate NewlyMinted(s: Store, saves: map<nat, SaveTxn>, x: Document) {
    && x == NewDocument(x.input, x.documentId, x.storageKey, x.checksum, x.sizeBytes, x.createdAt)
    && x.documentId !in s.docs && (forall d :: d in s.docs ==> s.docs[d].storageKey != x.storageKey)
    && forall u :: u in saves && !SaveFinished(saves[u]) ==>
         saves[u].document.documentId != x.documentId && saves[u].document.storageKey != x.storageKey
  }

  /** An INSERT waits for another that holds the same entry of a unique index, uncommitted. */
  ghost predicate SaveBlocked(saves: map<nat, SaveTxn>, t: nat)
    requires t in saves
  {
    saves[t].phase.Inserting?
    && exists u :: u in saves && u != t && saves[u].phase.Stored? && SharesEntry(saves[t].document, saves[u].document)
  }

  predicate SharesEntry(x: Document, y: Document) {
    x.input.archiveRequestId == y.input.archiveRequestId || x.storageKey == y.storageKey
  }

  ghost predicate EntryTaken(s: Store, x: Document) {
    x.input.archiveRequestId in s.byRequest || exists d :: d in s.docs && s.docs[d].storageKey == x.storageKey
  }

  ghost function SaveAdvances(s: Store, x: SaveTxn): SaveTxn {
    var request := x.document.input.archiveRequestId;
    match x.phase
    case Looking =>
      if request in s.byRequest && s.byRequest[request] != x.document.documentId
      then x.(phase := SaveEnded(SaveReply(Err(DuplicateArchiveRequest)), s)) else x.(phase := Inserting)
    case Inserting =>
      if EntryTaken(s, x.document) then x.(phase := SaveEnded(SaveReply(Err(DuplicateArchiveRequest)), s))
      else x.(phase := Stored)
    case _ => x
  }
}
