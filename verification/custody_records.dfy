/** What the rows of holds and lifecycle relationships record over whole runs: who asked for
    them, who released them, and that nothing destroyed was ever linked. */
module CustodyRecords {
  import opened Records
  import opened Transitions
  import opened CustodyInvariants
  import opened TransitionLaws
  import opened Platforms
  import opened CustodyThreads
  import opened CustodyRuns
  import opened CustodySteps
  import opened CustodyTheorems
  import opened PurgeEvaluation

  // ---- hold rows ----------------------------------------------------------------

  /** The step of a hold call that records hold `h`, as its caller asked. */
  ghost predicate Admits(y: System, l: Label, y': System, h: HoldId) {
    && l.Step? && l.tid in y.threads && y.threads[l.tid].Holding? && y.threads[l.tid].hold.Admitting?
    && h !in y.shared.store.holds && h in y'.shared.store.holds
    && var c := y.threads[l.tid];
       RequestedBy(y'.shared.store.holds[h], c.d, c.reason, c.authority, c.actor, l.env.now)
  }

  /** The step of a release call that clears hold `h`, as its caller asked. */
  ghost predicate Clears(y: System, l: Label, y': System, h: HoldId) {
    && Releases(y, l, h) && HoldActiveIn(y.shared.store, h) && h in y'.shared.store.holds
    && var c := y.threads[l.tid].release;
       ReleasedBy(y.shared.store.holds[h], y'.shared.store.holds[h], c.actor, c.at, c.reason)
  }

  lemma PurgeStepsLeaveRows(s: Shared, d: DocumentId, date: Option<Day>, goal: Goal, pc: PurgePc, env: Env)
    ensures var s' := PurgeStep(s, d, date, goal, pc, env).shared.store;
            s'.holds == s.store.holds && s'.relationships == s.store.relationships
  {
  }

  lemma WriteStepsLeaveRows(p: Platform, s: Shared, input: DocumentInput, content: Bytes, pc: WritePc, env: Env)
    ensures var s' := WriteStep(p, s, input, content, pc, env).shared.store;
            s'.holds == s.store.holds && s'.relationships == s.store.relationships
  {
  }

  /** Only hold and release calls write hold rows, and only transitions add relationships. */
  lemma OthersLeaveRows(p: Platform, y: System, l: Label, y': System)
    requires Next(p, y, l, y')
    ensures !(l.Step? && (y.threads[l.tid].Holding? || y.threads[l.tid].Releasing?)) ==>
              y'.shared.store.holds == y.shared.store.holds
    ensures !(l.Step? && y.threads[l.tid].Linking?) ==>
              y'.shared.store.relationships == y.shared.store.relationships
  {
    if l.Step? {
      match y.threads[l.tid] {
        case Purging(d, date, goal, pc) => PurgeStepsLeaveRows(Mint(y.shared, l.env.minted), d, date, goal, pc, l.env);
        case Archiving(input, content, pc) =>
          WriteStepsLeaveRows(p, Mint(y.shared, l.env.minted), input, content, pc, l.env);
        case _ =>
      }
    }
  }

  lemma HoldStepsAdmit(s: Shared, d: DocumentId, reason: string, authority: string, actor: string, pc: HoldPc, env: Env,
                       h: HoldId)
    requires h !in s.store.holds && h in HoldStep(s, d, reason, authority, actor, pc, env).shared.store.holds
    ensures pc.Admitting?
    ensures RequestedBy(HoldStep(s, d, reason, authority, actor, pc, env).shared.store.holds[h], d, reason, authority,
                        actor, env.now)
  {
  }

  lemma RowsAppear(p: Platform, y: System, l: Label, y': System, h: HoldId)
    requires Next(p, y, l, y') && h !in y.shared.store.holds && h in y'.shared.store.holds
    ensures Admits(y, l, y', h)
  {
    OthersLeaveRows(p, y, l, y');
    var c := y.threads[l.tid];
    if c.Holding? {
      HoldStepsAdmit(Mint(y.shared, l.env.minted), c.d, c.reason, c.authority, c.actor, c.hold, l.env, h);
    }
  }

  lemma RowsClear(p: Platform, y: System, l: Label, y': System, h: HoldId)
    requires SysInv(p, y) && Next(p, y, l, y') && HoldActiveIn(y.shared.store, h) && !HoldActiveIn(y'.shared.store, h)
    ensures Clears(y, l, y', h)
  {
    if !Releases(y, l, h) { StepsKeepHolds(p, y, l, y', h); }
    else {
      var c := y.threads[l.tid];
      ReleasingIsExact(Mint(y.shared, l.env.minted).store, c.d, c.holdId, c.release, l.env.now);
    }
  }

  ghost predicate RowAt(y: System, h: HoldId, row: Hold) {
    h in y.shared.store.holds && y.shared.store.holds[h] == row
  }

  lemma RowStep(p: Platform, states: seq<System>, labels: seq<Label>, i: nat, h: HoldId)
    requires IsRun(p, states, labels) && i < |labels| && h in states[i + 1].shared.store.holds
    ensures var y, y' := states[i], states[i + 1];
            || Admits(y, labels[i], y', h)
            || (h in y.shared.store.holds && HoldEvolves(y.shared.store.holds[h], y'.shared.store.holds[h])
                && (y'.shared.store.holds[h].status == Active || y.shared.store.holds[h].status == Clear
                    || Clears(y, labels[i], y', h)))
  {
    RunsAreSound(p, states, labels, i);
    assert Takes(p, states, labels, i);
    SoundStep(p, states, labels, i, states[i], states[i + 1]);
    if h !in states[i].shared.store.holds { RowsAppear(p, states[i], labels[i], states[i + 1], h); }
    else {
      assert HoldRowEvolves(states[i].shared.store, states[i + 1].shared.store, h);
      if HoldActiveIn(states[i].shared.store, h) && !HoldActiveIn(states[i + 1].shared.store, h) {
        RowsClear(p, states[i], labels[i], states[i + 1], h);
      }
    }
  }

  lemma RowGoesOn(p: Platform, states: seq<System>, labels: seq<Label>, j: nat, h: HoldId)
    requires IsRun(p, states, labels) && j < |labels|
    requires h in states[j + 1].shared.store.holds && !Admits(states[j], labels[j], states[j + 1], h)
    ensures h in states[j].shared.store.holds
    ensures var x, x' := states[j].shared.store.holds[h], states[j + 1].shared.store.holds[h];
            x' == x || (x'.status == Clear && Clears(states[j], labels[j], states[j + 1], h))
  {
    RowStep(p, states, labels, j, h);
  }

  /** Every hold row of every run was recorded as one hold call asked. While it is active it
      stands as recorded; once clear, one release call of that hold and document cleared it,
      and the row carries that caller's actor, instant and reason ever after. */
  lemma {:induction false} HoldRowsNameTheirCallers(p: Platform, states: seq<System>, labels: seq<Label>, j: nat,
                                                    h: HoldId)
    returns (i: nat, k: nat)
    requires IsRun(p, states, labels) && j < |states| && h in states[j].shared.store.holds
    ensures i < j && Admits(states[i], labels[i], states[i + 1], h)
    ensures states[j].shared.store.holds[h].status == Active ==>
              RowAt(states[i + 1], h, states[j].shared.store.holds[h])
    ensures states[j].shared.store.holds[h].status == Clear ==>
              && i < k < j && Clears(states[k], labels[k], states[k + 1], h)
              && RowAt(states[i + 1], h, states[k].shared.store.holds[h])
              && RowAt(states[k + 1], h, states[j].shared.store.holds[h])
    decreases j
  {
    assert j > 0;
    k := 0;
    if Admits(states[j - 1], labels[j - 1], states[j], h) {
      i := j - 1;
    } else {
      RowGoesOn(p, states, labels, j - 1, h);
      i, k := HoldRowsNameTheirCallers(p, states, labels, j - 1, h);
      if states[j].shared.store.holds[h] != states[j - 1].shared.store.holds[h] { k := j - 1; }
    }
  }

  // ---- relationship rows --------------------------------------------------------

  /** The step of a transition call that records row `r`, as its caller asked, between two
      documents that may be linked: neither is purged at that moment. */
  ghost predicate Links(y: System, l: Label, y': System, r: Relationship) {
    && l.Step? && l.tid in y.threads && y.threads[l.tid].Linking? && y.threads[l.tid].link.Applying?
    && y'.shared.store.relationships == y.shared.store.relationships + [r]
    && MayLink(y.shared.store, r.source, r.target)
    && var c := y.threads[l.tid];
       Requests(r, l.env.minted, c.source, c.target, c.kind, c.why, l.env.now)
  }

  lemma RowsLink(p: Platform, y: System, l: Label, y': System)
    requires SysInv(p, y) && Next(p, y, l, y') && y'.shared.store.relationships != y.shared.store.relationships
    ensures |y'.shared.store.relationships| > 0
        && Links(y, l, y', y'.shared.store.relationships[|y'.shared.store.relationships| - 1])
  {
    OthersLeaveRows(p, y, l, y');
    var s, c := Mint(y.shared, l.env.minted), y.threads[l.tid];
    Minting(p, y.shared, l.env.minted);
    assert c.link.Applying?;
    var r := NewRelationship(l.env.minted, c.source, c.target, c.kind, c.why, l.env.now);
    RowsAreNeverAddedForPurged(s.store, DoApply(c.source, c.target, c.kind, r, l.env.now));
  }

  lemma NoRowsAtFirst(p: Platform, states: seq<System>, labels: seq<Label>)
    requires IsRun(p, states, labels)
    ensures states[0].shared.store == EMPTY_STORE
  {
  }

  lemma RelationshipStep(p: Platform, states: seq<System>, labels: seq<Label>, i: nat, y: System, y': System)
    requires IsRun(p, states, labels) && i < |labels| && y == states[i] && y' == states[i + 1]
    ensures var rows, rows' := y.shared.store.relationships, y'.shared.store.relationships;
            rows' == rows || (|rows'| == |rows| + 1 && rows <= rows' && Links(y, labels[i], y', rows'[|rows|]))
  {
    RunsAreSound(p, states, labels, i);
    assert Takes(p, states, labels, i);
    if y'.shared.store.relationships != y.shared.store.relationships { RowsLink(p, y, labels[i], y'); }
  }

  /** The list after step `k` is the list before it, or that with one row more. */
  ghost predicate GrowsAt(rows: seq<seq<Relationship>>, k: nat) {
    k + 1 < |rows| && rows[k] <= rows[k + 1] && |rows[k + 1]| <= |rows[k]| + 1
  }

  /** Where a list that grows by at most one row a step got its row `n`. */
  lemma {:induction false} WhenAdded(rows: seq<seq<Relationship>>, j: nat, n: nat) returns (i: nat)
    requires j < |rows| && rows[0] == [] && n < |rows[j]|
    requires forall k: nat {:trigger GrowsAt(rows, k)} :: k < j ==> GrowsAt(rows, k)
    ensures i < j && |rows[i]| == n && |rows[i + 1]| == n + 1 && rows[i + 1][n] == rows[j][n]
    decreases j
  {
    assert j > 0;
    assert GrowsAt(rows, j - 1);
    if n < |rows[j - 1]| { i := WhenAdded(rows, j - 1, n); }
    else { i := j - 1; }
  }

  /** Every relationship row of every run was added by one transition call, as that call
      asked, at a moment when both its documents existed, neither was purged, and neither was
      superseded. */
  lemma RelationshipsNameTheirCallers(p: Platform, states: seq<System>, labels: seq<Label>, j: nat, n: nat)
    returns (i: nat)
    requires IsRun(p, states, labels) && j < |states| && n < |states[j].shared.store.relationships|
    ensures i < j && |states[i].shared.store.relationships| == n
    ensures Links(states[i], labels[i], states[i + 1], states[j].shared.store.relationships[n])
  {
    var rows := seq(|states|, k requires 0 <= k < |states| => states[k].shared.store.relationships);
    NoRowsAtFirst(p, states, labels);
    forall k: nat | k < j ensures GrowsAt(rows, k) {
      RelationshipStep(p, states, labels, k, states[k], states[k + 1]);
    }
    i := WhenAdded(rows, j, n);
    RelationshipStep(p, states, labels, i, states[i], states[i + 1]);
  }
}
