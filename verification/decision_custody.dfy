/** From the archive's rows to the signed payload: what a decision says about a document was
    true of the archive while the posture it rests on was being read. */
module DecisionCustody {
  import opened Records
  import opened Transitions
  import opened CustodyInvariants
  import opened PurgeEvaluation
  import opened DecisionActions
  import opened LifecycleKeys
  import opened DecisionLedger
  import opened Platforms
  import opened CustodyThreads
  import opened CustodyAssertions
  import opened CustodySteps
  import CustodyRuns
  import CustodyTheorems
  import opened CustodyAccounts
  import PostgresCustody

  /** What a payload says, read off the archive itself: the document's tenant, region and
      policy, its active holds and their number, its purge status, and the action. */
  ghost predicate Speaks(s: Shared, x: Payload) {
    && x.documentId in s.store.docs
    && var row := s.store.docs[x.documentId];
       && x.tenantId == row.input.tenantId && x.region == row.input.region
       && "retention_policy_id" in row.input.otherFields
       && x.retentionPolicyId == row.input.otherFields["retention_policy_id"]
       && x.holdCount == |ActiveHolds(s.store.holds, x.documentId)|
       && (x.holdStatus == Active <==> ActiveHolds(s.store.holds, x.documentId) != {})
       && x.purgeStatus == row.purgeStatus
       && Truthful(s, x.documentId, x.action)
       && (x.reason == "purge_executed" ==> row.storageKey !in s.objects && row.purgedAt.Some?)
  }

  /** At this moment the thread was reading the posture of the payload's document, and the
      payload spoke the truth. */
  ghost predicate SpeaksDuring(y: System, tid: nat, x: Payload) {
    tid in y.threads && y.threads[tid].Purging? && y.threads[tid].d == x.documentId && Speaks(y.shared, x)
  }

  /** The posture of the ask is what thread `tid` had signed for at state `y`. */
  ghost predicate ReadBy(y: System, tid: nat, ask: Ask) {
    && tid in y.threads && y.threads[tid].Purging? && y.threads[tid].d == ask.request.documentId
    && y.threads[tid].purge.Signed? && ask.posture == Ok(y.threads[tid].purge.m)
  }

  lemma RowsSpeak(p: Platform, s: Shared, x: Payload, keyId: string, ask: Ask, m: Document)
    requires SharedInv(p, s) && Certifies(x, keyId, ask, m)
    requires ask.request.documentId in s.store.docs && s.store.docs[ask.request.documentId] == m
    ensures Speaks(s, x)
  {
    var d := ask.request.documentId;
    assert DocOk(p, s, d) && RowInv(s.store, d);
    ActionsAreTruthful(p, s, d);
    ActionsAreExact(m);
    assert ActiveHolds(s.store.holds, d) == {} <==> |ActiveHolds(s.store.holds, d)| == 0;
  }

  lemma StoodSpeaks(p: Platform, states: seq<System>, labels: seq<Label>, i: nat, tid: nat, x: Payload, keyId: string,
                    ask: Ask, m: Document)
    requires IsRun(p, states, labels) && i < |states| && Certifies(x, keyId, ask, m)
    requires Stood(states[i], tid, ask.request.documentId, m)
    ensures SpeaksDuring(states[i], tid, x)
  {
    CustodyRuns.RunsAreSound(p, states, labels, i);
    RowsSpeak(p, states[i].shared, x, keyId, ask, m);
  }

  /** Whatever else ran meanwhile: a payload that certifies the posture a thread of a run read
      was true of the archive at some moment of that thread's own call. */
  lemma PayloadsAreTruthful(p: Platform, states: seq<System>, labels: seq<Label>, j: nat, tid: nat, x: Payload,
                            keyId: string, ask: Ask)
    requires IsRun(p, states, labels) && j < |states| && ReadBy(states[j], tid, ask)
    requires Certifies(x, keyId, ask, ask.posture.value)
    ensures exists i: nat :: i <= j && SpeaksDuring(states[i], tid, x)
  {
    var m := ask.posture.value;
    CarriedStood(p, states, labels, j, tid);
    var i: nat :| i <= j && Stood(states[i], tid, ask.request.documentId, m);
    StoodSpeaks(p, states, labels, i, tid, x, keyId, ask, m);
    assert SpeaksDuring(states[i], tid, x);
  }

  ghost predicate ReadInRun(states: seq<System>, ask: Ask) {
    exists j: nat, tid: nat :: j < |states| && ReadBy(states[j], tid, ask)
  }

  ghost predicate SpokeInRun(states: seq<System>, x: Payload) {
    exists i: nat, tid: nat :: i < |states| && SpeaksDuring(states[i], tid, x)
  }

  lemma ReadPayloadsSpoke(p: Platform, states: seq<System>, labels: seq<Label>, x: Payload, keyId: string, ask: Ask)
    requires IsRun(p, states, labels) && ReadInRun(states, ask) && ask.posture.Ok?
    requires Certifies(x, keyId, ask, ask.posture.value)
    ensures SpokeInRun(states, x)
  {
    var j: nat, tid: nat :| j < |states| && ReadBy(states[j], tid, ask);
    PayloadsAreTruthful(p, states, labels, j, tid, x, keyId, ask);
    var i: nat :| i <= j && SpeaksDuring(states[i], tid, x);
    assert i < |states| && SpeaksDuring(states[i], tid, x);
  }

  /** Over any history of the ledger and any run of the archive that its postures were read
      from: every decision the ledger holds was true of the archive at some moment. */
  lemma LedgersAreTruthful(p: Platform, states: seq<System>, labels: seq<Label>, digest: Payload -> string,
                           s: Settings, es: seq<Event>, key: string)
    requires IsRun(p, states, labels)
    requires ProductionAll(digest, FirstCustody(s), es) && key in HappenAll(digest, FirstCustody(s), es).ledger
    requires forall k :: 0 <= k < |es| && es[k].Asked? && es[k].ask.posture.Ok? ==> ReadInRun(states, es[k].ask)
    ensures SpokeInRun(states, HappenAll(digest, FirstCustody(s), es).ledger[key].decision.payload)
  {
    var ask, keyId := EntryWasAsked(digest, s, es, key);
    var x := HappenAll(digest, FirstCustody(s), es).ledger[key].decision.payload;
    ReadPayloadsSpoke(p, states, labels, x, keyId, ask);
  }

  lemma EntryWasAsked(digest: Payload -> string, s: Settings, es: seq<Event>, key: string)
    returns (ask: Ask, keyId: string)
    requires ProductionAll(digest, FirstCustody(s), es) && key in HappenAll(digest, FirstCustody(s), es).ledger
    ensures ask.posture.Ok? && exists k :: 0 <= k < |es| && es[k].Asked? && es[k].ask == ask
    ensures var x := HappenAll(digest, FirstCustody(s), es).ledger[key].decision.payload;
            Certifies(x, keyId, ask, ask.posture.value)
  {
    var k := EntriesCertifyTheirPosture(digest, s, es, key);
    ask, keyId := es[k].ask, SettingsAt(digest, FirstCustody(s), es, k).keyId;
  }

  // ---- over PostgreSQL ----------------------------------------------------------

  lemma ResavesStillSpeak(y: System, mid: System, tid: nat, x: Payload)
    requires RowsInv(y.shared.store) && PostgresCustody.Resaves(y, mid) && SpeaksDuring(mid, tid, x)
    ensures SpeaksDuring(y, tid, x)
  {
    var e, now :| e in y.shared.store.docs && mid == y.(shared := Touched(y.shared, e, now));
    CustodyRuns.TouchIsOneColumn(y.shared.store, e, now);
  }

  /** And over every run of PostgreSQL transactions: at some moment of the reading call the
      payload was true of what was committed and stored. */
  lemma PostgresPayloadsAreTruthful(p: Platform, ys: seq<PostgresCustody.PgSystem>, ls: seq<PostgresCustody.PgLabel>,
                                    j: nat, tid: nat, x: Payload, keyId: string, ask: Ask)
    requires PostgresCustody.IsPgRun(p, ys, ls) && j < |ys| && ReadBy(PostgresCustody.Abs(ys[j]), tid, ask)
    requires Certifies(x, keyId, ask, ask.posture.value)
    ensures exists i: nat :: i <= j && SpeaksDuring(PostgresCustody.Abs(ys[i]), tid, x)
  {
    var w := PostgresCustody.PostgresRunsAreCustodyRuns(p, ys, ls, j);
    assert PostgresCustody.ReachesAt(ys, w, j);
    PayloadsAreTruthful(p, w.states, w.labels, w.at[j], tid, x, keyId, ask);
    var k: nat :| k <= w.at[j] && SpeaksDuring(w.states[k], tid, x);
    assert PostgresCustody.BelongsTo(ys, w, k) && PostgresCustody.NotLater(w, k, j);
    var i, z := w.near[k], w.states[k];
    PostgresCustody.PgRunsAreSound(p, ys, ls, i);
    if z != PostgresCustody.Abs(ys[i]) { ResavesStillSpeak(PostgresCustody.Abs(ys[i]), z, tid, x); }
    assert SpeaksDuring(PostgresCustody.Abs(ys[i]), tid, x);
  }
}
