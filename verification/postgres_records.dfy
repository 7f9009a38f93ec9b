/** What committed rows record, over every run of PostgreSQL transactions: each hold row and
    each relationship row names the call that committed it, each cleared hold the release. */
module PostgresRecords {
  import opened Records
  import opened Transitions
  import opened CustodyInvariants
  import opened TransitionLaws
  import opened Platforms
  import opened Postgres
  import opened PostgresRefinement
  import opened PostgresRuns
  import CustodyRecords
  import PostgresCustody

  // ---- hold rows ----------------------------------------------------------------

  ghost predicate HoldStored(s: Store, h: HoldId, row: Hold) {
    h in s.holds && s.holds[h] == row
  }

  /** The commit that records hold row `h`, as its call gave it. */
  ghost predicate CommitsAdmission(db: Db, l: DbLabel, db': Db, h: HoldId) {
    match Committing(db, l)
    case None => false
    case Some(call) =>
      && call.command.DoAdmit? && call.command.holdId == h && h !in db.committed.holds
      && HoldStored(db'.committed, h, call.command.hold) && call.command.hold.status == Active
  }

  /** The commit that clears active hold `h`: it records its caller's actor, instant and
      reason, and keeps what the request recorded. */
  ghost predicate CommitsClearing(db: Db, l: DbLabel, db': Db, h: HoldId) {
    && HoldStands(db.committed, h) && h in db'.committed.holds
    && match Committing(db, l)
       case None => false
       case Some(call) =>
         && call.command.DoRelease? && call.command.holdId == h && call.command.d == db.committed.holds[h].documentId
         && ReleasedBy(db.committed.holds[h], db'.committed.holds[h], call.command.release.actor,
                       call.command.release.at, call.command.release.reason)
  }

  lemma CallOnHold(s: Store, c: Command, h: HoldId)
    requires Admissible(s, c)
    ensures var s' := Perform(s, c).store;
            && (h in s.holds ==> h in s'.holds)
            && (h in s'.holds && h !in s.holds ==> c.DoAdmit? && c.holdId == h && s'.holds[h] == c.hold)
            && (h in s.holds && s'.holds[h] != s.holds[h] ==>
                  && c.DoRelease? && c.holdId == h && c.d == s.holds[h].documentId && s.holds[h].status == Active
                  && ReleasedBy(s.holds[h], s'.holds[h], c.release.actor, c.release.at, c.release.reason))
  {
    match c
    case DoRelease(d, id, r, now) => ReleasingIsExact(s, d, id, r, now);
    case DoApply(_, _, _, _, _) => ApplyKeepsHolds(s, c);
    case _ =>
  }

  lemma HoldRowStep(dbs: seq<Db>, labels: seq<DbLabel>, i: nat, h: HoldId, db: Db, db': Db)
    requires IsDbRun(dbs, labels) && i < |labels| && db == dbs[i] && db' == dbs[i + 1] && h in db'.committed.holds
    ensures || CommitsAdmission(db, labels[i], db', h)
            || HoldStored(db.committed, h, db'.committed.holds[h])
            || (CommitsClearing(db, labels[i], db', h) && db'.committed.holds[h].status == Clear)
  {
    DbRunsAreSound(dbs, labels, i);
    DbRunStep(dbs, labels, i, db, labels[i], db');
    match Committing(db, labels[i])
    case None =>
    case Some(call) => CallOnHold(db.committed, call.command, h);
  }

  /** Every committed hold row was committed by one admission, stands as admitted while it is
      active, and once clear carries the facts of the one committed release that cleared it. */
  lemma {:induction false} CommittedHoldsNameTheirCalls(dbs: seq<Db>, labels: seq<DbLabel>, j: nat, h: HoldId)
    returns (i: nat, k: nat)
    requires IsDbRun(dbs, labels) && j < |dbs| && h in dbs[j].committed.holds
    ensures i < j && CommitsAdmission(dbs[i], labels[i], dbs[i + 1], h)
    ensures dbs[j].committed.holds[h].status == Active ==>
              HoldStored(dbs[i + 1].committed, h, dbs[j].committed.holds[h])
    ensures dbs[j].committed.holds[h].status == Clear ==>
              && i < k < j && CommitsClearing(dbs[k], labels[k], dbs[k + 1], h)
              && HoldStored(dbs[i + 1].committed, h, dbs[k].committed.holds[h])
              && HoldStored(dbs[k + 1].committed, h, dbs[j].committed.holds[h])
    decreases j
  {
    assert j > 0;
    k := 0;
    HoldRowStep(dbs, labels, j - 1, h, dbs[j - 1], dbs[j]);
    if CommitsAdmission(dbs[j - 1], labels[j - 1], dbs[j], h) {
      i := j - 1;
    } else {
      i, k := CommittedHoldsNameTheirCalls(dbs, labels, j - 1, h);
      if dbs[j].committed.holds[h] != dbs[j - 1].committed.holds[h] { k := j - 1; }
    }
  }

  // ---- relationship rows --------------------------------------------------------

  /** The commit that adds relationship row `r`, between two committed documents that may be
      linked: neither is purged at that moment. */
  ghost predicate CommitsLink(db: Db, l: DbLabel, db': Db, r: Relationship) {
    && db'.committed.relationships == db.committed.relationships + [r]
    && MayLink(db.committed, r.source, r.target)
    && match Committing(db, l)
       case None => false
       case Some(call) => call.command.DoApply? && call.command.relationship == r
  }

  lemma RelationshipRowStep(dbs: seq<Db>, labels: seq<DbLabel>, i: nat, db: Db, db': Db)
    requires IsDbRun(dbs, labels) && i < |labels| && db == dbs[i] && db' == dbs[i + 1]
    ensures var rows, rows' := db.committed.relationships, db'.committed.relationships;
            rows' == rows || (|rows'| == |rows| + 1 && rows <= rows' && CommitsLink(db, labels[i], db', rows'[|rows|]))
  {
    DbRunsAreSound(dbs, labels, i);
    DbRunStep(dbs, labels, i, db, labels[i], db');
    match Committing(db, labels[i])
    case None =>
    case Some(call) =>
      if db'.committed.relationships != db.committed.relationships {
        RowsAreNeverAddedForPurged(db.committed, call.command);
      }
  }

  /** Every committed relationship row was added by one committed transition, when both its
      documents were committed, neither was purged and neither was superseded. */
  lemma CommittedRelationshipsNameTheirCalls(dbs: seq<Db>, labels: seq<DbLabel>, j: nat, n: nat) returns (i: nat)
    requires IsDbRun(dbs, labels) && j < |dbs| && n < |dbs[j].committed.relationships|
    ensures i < j && |dbs[i].committed.relationships| == n
    ensures CommitsLink(dbs[i], labels[i], dbs[i + 1], dbs[j].committed.relationships[n])
  {
    var rows := seq(|dbs|, k requires 0 <= k < |dbs| => dbs[k].committed.relationships);
    forall k: nat | k < j ensures CustodyRecords.GrowsAt(rows, k) {
      RelationshipRowStep(dbs, labels, k, dbs[k], dbs[k + 1]);
    }
    i := CustodyRecords.WhenAdded(rows, j, n);
    RelationshipRowStep(dbs, labels, i, dbs[i], dbs[i + 1]);
  }

  // ---- the callers --------------------------------------------------------------

  /** Over PostgreSQL a relationship row was added as one transition call asked - its reason,
      its actor, the reason code of its kind - in the atomic run that the run passes through. */
  lemma PostgresRelationshipsNameTheirCallers(p: Platform, ys: seq<PostgresCustody.PgSystem>,
                                              ls: seq<PostgresCustody.PgLabel>, j: nat, n: nat)
    returns (w: PostgresCustody.Shadow, i: nat)
    requires PostgresCustody.IsPgRun(p, ys, ls) && j < |ys| && n < |ys[j].db.committed.relationships|
    ensures PostgresCustody.Shadows(p, ys, j, w) && PostgresCustody.ReachesAt(ys, w, j) && i < w.at[j]
    ensures CustodyRecords.Links(w.states[i], w.labels[i], w.states[i + 1], ys[j].db.committed.relationships[n])
  {
    w := PostgresCustody.PostgresRunsAreCustodyRuns(p, ys, ls, j);
    assert PostgresCustody.ReachesAt(ys, w, j);
    PostgresCustody.PgRunsAreSound(p, ys, ls, j);
    i := CustodyRecords.RelationshipsNameTheirCallers(p, w.states, w.labels, w.at[j], n);
  }

  /** Over PostgreSQL a hold row was recorded as one hold call asked, and if it is clear, was
      cleared as one release call of it asked, in the atomic run that the run passes through. */
  lemma PostgresHoldsNameTheirCallers(p: Platform, ys: seq<PostgresCustody.PgSystem>,
                                      ls: seq<PostgresCustody.PgLabel>, j: nat, h: HoldId)
    returns (w: PostgresCustody.Shadow, i: nat, k: nat)
    requires PostgresCustody.IsPgRun(p, ys, ls) && j < |ys| && h in ys[j].db.committed.holds
    ensures PostgresCustody.Shadows(p, ys, j, w) && PostgresCustody.ReachesAt(ys, w, j) && i < w.at[j]
    ensures CustodyRecords.Admits(w.states[i], w.labels[i], w.states[i + 1], h)
    ensures ys[j].db.committed.holds[h].status == Clear ==>
              && i < k < w.at[j] && CustodyRecords.Clears(w.states[k], w.labels[k], w.states[k + 1], h)
              && CustodyRecords.RowAt(w.states[k + 1], h, ys[j].db.committed.holds[h])
  {
    w := PostgresCustody.PostgresRunsAreCustodyRuns(p, ys, ls, j);
    assert PostgresCustody.ReachesAt(ys, w, j);
    PostgresCustody.PgRunsAreSound(p, ys, ls, j);
    i, k := CustodyRecords.HoldRowsNameTheirCallers(p, w.states, w.labels, w.at[j], h);
  }
}
