/** Issuing lifecycle decisions over a replay ledger shared by several processes: between a
    process's look-up and its save, others may save and the operator may reconfigure. */
module DecisionLedger {
  import opened Records
  import opened DecisionActions
  import opened LifecycleKeys

  datatype IssueError =
    | SigningKeyRevoked
    | TenantRequired
    | IdempotencyConflict
    | PostureUnavailable(error: ArchiveError)
    | TenantMismatch
    | NotProofPack
    | NoRetentionPolicy
    | InvalidRegion

  datatype Entry = Entry(request: Request, decision: Decision)

  type Ledger = map<string, Entry>

  datatype Issued = Issued(ledger: Ledger, reply: Result<Decision, IssueError>)

  /** A request and what it is issued from: the call's context, the document's posture, the
      clock, the lifetime. */
  datatype Ask = Ask(
    key: string,
    request: Request,
    correlationId: string,
    traceId: string,
    posture: Result<Document, ArchiveError>,
    issuedAt: Instant,
    ttl: int)

  /** `^[A-Z]{2,16}$`: the regions a decision can name. */
  predicate RegionCode(region: string) {
    2 <= |region| <= 16 && forall i :: 0 <= i < |region| ==> 'A' <= region[i] <= 'Z'
  }

  const RETENTION_POLICY := "retention_policy_id"

  function PayloadFor(s: Settings, ask: Ask, m: Document): Payload
    requires ask.request.tenantId.Some? && RETENTION_POLICY in m.input.otherFields
  {
    var r := ask.request;
    Payload(HashOf(ask.key, r), r.documentId, r.evidencePackId, r.candidateId, r.sourceCorrelationRef, r.tenantId.value,
            m.input.region, m.input.otherFields[RETENTION_POLICY], m.holdStatus, m.holdCount, m.purgeStatus,
            DecisionAction(m), false, DecisionReason(m), ask.issuedAt, ask.issuedAt + ask.ttl,
            ask.correlationId, ask.traceId, s.keyId)
  }

  /** Everything `issue` does up to its save: an answer, or a decision it has signed. */
  datatype Prepared = Answered(reply: Result<Decision, IssueError>) | Minted(decision: Decision)

  function Prepare(digest: Payload -> string, s: Settings, ledger: Ledger, ask: Ask): Prepared {
    if s.keyId in s.revoked then Answered(Err(SigningKeyRevoked))
    else if ask.request.tenantId.None? then Answered(Err(TenantRequired))
    else if ask.key in ledger then
      Answered(if ledger[ask.key].request != ask.request then Err(IdempotencyConflict)
          else Ok(ledger[ask.key].decision))
    else match ask.posture
      case Err(error) => Answered(Err(PostureUnavailable(error)))
      case Ok(m) =>
        if m.input.tenantId != ask.request.tenantId.value then Answered(Err(TenantMismatch))
        else if m.input.reportType != "proof_pack" then Answered(Err(NotProofPack))
        else if RETENTION_POLICY !in m.input.otherFields then Answered(Err(NoRetentionPolicy))
        else if !RegionCode(m.input.region) then Answered(Err(InvalidRegion))
        else Minted(Sign(digest, s.publicKey, PayloadFor(s, ask, m)))
  }

  /** The ledger's save: an insert, or on conflict the entry already there. */
  function SaveDecision(ledger: Ledger, key: string, r: Request, decision: Decision): Issued {
    if key !in ledger then Issued(ledger[key := Entry(r, decision)], Ok(decision))
    else Issued(ledger, if ledger[key].request == r then Ok(ledger[key].decision) else Err(IdempotencyConflict))
  }

  /** An undisturbed `issue`. */
  function IssueDecision(digest: Payload -> string, s: Settings, ledger: Ledger, ask: Ask): Issued {
    match Prepare(digest, s, ledger, ask)
    case Answered(reply) => Issued(ledger, reply)
    case Minted(decision) => SaveDecision(ledger, ask.key, ask.request, decision)
  }

  /** `IdeaLifecycleDecisionService` over its replay ledger. */
  class LifecycleDecisionService {
    const settings: Settings
    const digest: Payload -> string
    var ledger: Ledger

    constructor (settings: Settings, digest: Payload -> string, ledger: Ledger)
      ensures this.settings == settings && this.digest == digest && this.ledger == ledger
    {
      this.settings, this.digest, this.ledger := settings, digest, ledger;
    }

    method Save(key: string, r: Request, decision: Decision) returns (reply: Result<Decision, IssueError>)
      modifies this
      ensures Issued(ledger, reply) == SaveDecision(old(ledger), key, r, decision)
    {
      if key in ledger {
        var existing := ledger[key];
        return if existing.request == r then Ok(existing.decision) else Err(IdempotencyConflict);
      }
      ledger := ledger[key := Entry(r, decision)];
      reply := Ok(decision);
    }

    method Issue(ask: Ask) returns (reply: Result<Decision, IssueError>)
      modifies this
      ensures Issued(ledger, reply) == IssueDecision(digest, settings, old(ledger), ask)
    {
      if settings.keyId in settings.revoked { return Err(SigningKeyRevoked); }
      if ask.request.tenantId.None? { return Err(TenantRequired); }
      if ask.key in ledger {
        if ledger[ask.key].request != ask.request { return Err(IdempotencyConflict); }
        return Ok(ledger[ask.key].decision);
      }
      if ask.posture.Err? { return Err(PostureUnavailable(ask.posture.error)); }
      var m := ask.posture.value;
      if m.input.tenantId != ask.request.tenantId.value { return Err(TenantMismatch); }
      if m.input.reportType != "proof_pack" { return Err(NotProofPack); }
      if RETENTION_POLICY !in m.input.otherFields { return Err(NoRetentionPolicy); }
      if !RegionCode(m.input.region) { return Err(InvalidRegion); }
      reply := Save(ask.key, ask.request, Sign(digest, settings.publicKey, PayloadFor(settings, ask, m)));
    }
  }

  // ---- what an issue answers and signs ------------------------------------------

  /** Two to sixteen letters, and no character that is not a capital one. */
  ghost predicate NamesRegion(region: string) {
    1 < |region| && |region| < 17 && !exists c :: c in region && (c < 'A' || 'Z' < c)
  }

  lemma RegionCodesName(region: string)
    ensures RegionCode(region) <==> NamesRegion(region)
  {
    if RegionCode(region) {
      forall c | c in region ensures !(c < 'A' || 'Z' < c) {
        var i :| 0 <= i < |region| && region[i] == c;
        assert 'A' <= region[i] <= 'Z';
      }
    }
    if NamesRegion(region) {
      forall i | 0 <= i < |region| ensures 'A' <= region[i] <= 'Z' { assert region[i] in region; }
    }
  }

  /** A document a decision can be made about, for this caller. */
  ghost predicate Decidable(ask: Ask, m: Document) {
    && ask.request.tenantId == Some(m.input.tenantId) && m.input.reportType == "proof_pack"
    && "retention_policy_id" in m.input.otherFields && NamesRegion(m.input.region)
  }

  /** What a decision says: the request, the call's context, the document's posture, an action
      and a reason true of that posture, and a lifetime that starts when it is issued. */
  ghost predicate Certifies(x: Payload, keyId: string, ask: Ask, m: Document) {
    && x.decisionId.key == ask.key && x.decisionId.request == ask.request
    && x.documentId == ask.request.documentId && ask.request.tenantId == Some(x.tenantId)
    && x.evidencePackId == ask.request.evidencePackId && x.candidateId == ask.request.candidateId
    && x.sourceCorrelationRef == ask.request.sourceCorrelationRef
    && x.tenantId == m.input.tenantId && x.region == m.input.region
    && "retention_policy_id" in m.input.otherFields && x.retentionPolicyId == m.input.otherFields["retention_policy_id"]
    && x.holdStatus == m.holdStatus && x.holdCount == m.holdCount && x.purgeStatus == m.purgeStatus
    && States(m, x.action, x.reason) && !x.disposalAuthorized
    && x.issuedAt == ask.issuedAt && x.expiresAt == ask.issuedAt + ask.ttl
    && x.correlationId == ask.correlationId && x.traceId == ask.traceId && x.signingKeyId == keyId
  }

  /** Why nothing is signed for a key that is not in the ledger yet. */
  ghost predicate Undecided(ask: Ask, error: IssueError) {
    match ask.posture
    case Err(e) => error == PostureUnavailable(e)
    case Ok(m) =>
      && (error == TenantMismatch <==> ask.request.tenantId != Some(m.input.tenantId))
      && (error == NotProofPack <==>
            ask.request.tenantId == Some(m.input.tenantId) && m.input.reportType != "proof_pack")
      && (error == NoRetentionPolicy <==>
            && ask.request.tenantId == Some(m.input.tenantId) && m.input.reportType == "proof_pack"
            && "retention_policy_id" !in m.input.otherFields)
      && (error == InvalidRegion <==>
            && ask.request.tenantId == Some(m.input.tenantId) && m.input.reportType == "proof_pack"
            && "retention_policy_id" in m.input.otherFields && !NamesRegion(m.input.region))
      && error in {TenantMismatch, NotProofPack, NoRetentionPolicy, InvalidRegion}
  }

  /** What is decided before the save: a revoked signer and a missing tenant refuse first; a
      recorded key is answered from the ledger; a new one gets a decision on the posture,
      signed with the current key over exactly what it certifies, or the refusal that fits. */
  lemma PreparationIsExact(digest: Payload -> string, s: Settings, ledger: Ledger, ask: Ask)
    ensures var prepared := Prepare(digest, s, ledger, ask);
            var open := s.keyId !in s.revoked && ask.request.tenantId.Some?;
            && (s.keyId in s.revoked ==> prepared == Answered(Err(SigningKeyRevoked)))
            && (s.keyId !in s.revoked && ask.request.tenantId.None? ==> prepared == Answered(Err(TenantRequired)))
            && (open && ask.key in ledger ==>
                  prepared == Answered(if ledger[ask.key].request == ask.request then Ok(ledger[ask.key].decision)
                                       else Err(IdempotencyConflict)))
            && (prepared.Minted? <==>
                  open && ask.key !in ledger && ask.posture.Ok? && Decidable(ask, ask.posture.value))
            && (open && ask.key !in ledger && prepared.Answered? ==>
                  prepared.reply.Err? && Undecided(ask, prepared.reply.error))
            && (prepared.Minted? ==>
                  var d := prepared.decision;
                  && Certifies(d.payload, s.keyId, ask, ask.posture.value)
                  && d.digest == digest(d.payload) && d.signature == Ed25519(s.publicKey, d.payload))
  {
    if ask.posture.Ok? {
      ActionsAreExact(ask.posture.value);
      RegionCodesName(ask.posture.value.input.region);
    }
  }

  /** The save keeps the first decision under a key: a new key is entered, an equal request
      gets the decision entered before it, a different one conflicts. */
  lemma FirstDecisionIsKept(ledger: Ledger, key: string, r: Request, decision: Decision)
    ensures var saved := SaveDecision(ledger, key, r, decision);
            && key in saved.ledger && saved.ledger.Keys == ledger.Keys + {key}
            && (forall k :: k in ledger ==> saved.ledger[k] == ledger[k])
            && (key !in ledger ==> saved.ledger[key].request == r && saved.ledger[key].decision == decision)
            && (saved.ledger[key].request == r ==> saved.reply == Ok(saved.ledger[key].decision))
            && (saved.ledger[key].request != r ==> saved.reply == Err(IdempotencyConflict))
  {
  }

  /** An undisturbed issue under a new key: it signs and enters one decision on the document's
      posture, or refuses and enters nothing. */
  lemma IssuesAreExact(digest: Payload -> string, s: Settings, ledger: Ledger, ask: Ask)
    requires ask.key !in ledger
    ensures var issued := IssueDecision(digest, s, ledger, ask);
            && (issued.reply.Ok? <==>
                  && s.keyId !in s.revoked && ask.request.tenantId.Some?
                  && ask.posture.Ok? && Decidable(ask, ask.posture.value))
            && (issued.reply.Ok? ==>
                  var d := issued.reply.value;
                  && issued.ledger == ledger[ask.key := Entry(ask.request, d)]
                  && Certifies(d.payload, s.keyId, ask, ask.posture.value)
                  && d.digest == digest(d.payload) && d.signature == Ed25519(s.publicKey, d.payload))
            && (issued.reply.Err? ==> issued.ledger == ledger)
  {
    PreparationIsExact(digest, s, ledger, ask);
  }

  // ---- histories of rotations, revocations, look-ups and saves ------------------

  /** A signed decision on its way to the ledger. */
  datatype Flight = Flight(key: string, request: Request, decision: Decision)

  datatype Custody = Custody(settings: Settings, ledger: Ledger, flights: map<nat, Flight>)

  datatype Event = Reconfigure(change: Change) | Asked(t: nat, ask: Ask) | Saved(t: nat)

  function Happen(digest: Payload -> string, c: Custody, e: Event): Custody
    requires c.settings.notBefore.Some?
  {
    match e
    case Reconfigure(change) => c.(settings := Changed(c.settings, change))
    case Asked(t, ask) =>
      (match Prepare(digest, c.settings, c.ledger, ask)
       case Answered(_) => c
       case Minted(decision) => c.(flights := c.flights[t := Flight(ask.key, ask.request, decision)]))
    case Saved(t) =>
      if t !in c.flights then c
      else c.(ledger := SaveDecision(c.ledger, c.flights[t].key, c.flights[t].request, c.flights[t].decision).ledger,
              flights := c.flights - {t})
  }

  /** What the event answers its caller, and under which idempotency key. */
  function ReplyOf(digest: Payload -> string, c: Custody, e: Event): Option<(string, Result<Decision, IssueError>)> {
    match e
    case Reconfigure(_) => None
    case Asked(_, ask) =>
      (match Prepare(digest, c.settings, c.ledger, ask)
       case Answered(reply) => Some((ask.key, reply))
       case Minted(_) => None)
    case Saved(t) =>
      if t !in c.flights then None
      else Some((c.flights[t].key, SaveDecision(c.ledger, c.flights[t].key, c.flights[t].request,
          c.flights[t].decision).reply))
  }

  ghost predicate Vouched(digest: Payload -> string, s: Settings, r: Request, d: Decision) {
    r.tenantId.Some? && Genuine(digest, s, d)
  }

  ghost predicate EntryOk(digest: Payload -> string, c: Custody, key: string) {
    key in c.ledger && Vouched(digest, c.settings, c.ledger[key].request, c.ledger[key].decision)
  }

  ghost predicate FlightOk(digest: Payload -> string, c: Custody, t: nat) {
    t in c.flights && Vouched(digest, c.settings, c.flights[t].request, c.flights[t].decision)
  }

  ghost predicate CustodyInv(digest: Payload -> string, c: Custody, origin: Instant) {
    && Production(c.settings) && Tiled(c.settings, origin)
    && (forall key {:trigger EntryOk(digest, c, key)} :: key in c.ledger ==> EntryOk(digest, c, key))
    && (forall t {:trigger FlightOk(digest, c, t)} :: t in c.flights ==> FlightOk(digest, c, t))
  }

  lemma MintedAreGenuine(digest: Payload -> string, s: Settings, ledger: Ledger, ask: Ask)
    requires Production(s) && Prepare(digest, s, ledger, ask).Minted?
    ensures Vouched(digest, s, ask.request, Prepare(digest, s, ledger, ask).decision)
    ensures s.keyId !in s.revoked && Prepare(digest, s, ledger, ask).decision.payload.signingKeyId == s.keyId
  {
    assert SignedByPublished(digest, s, Prepare(digest, s, ledger, ask).decision, 0);
  }

  lemma ChangeKeepsCustody(digest: Payload -> string, c: Custody, origin: Instant, change: Change)
    requires CustodyInv(digest, c, origin) && Production(Changed(c.settings, change))
    ensures CustodyInv(digest, c.(settings := Changed(c.settings, change)), origin)
  {
    var c' := c.(settings := Changed(c.settings, change));
    ChangesKeepTiling(c.settings, origin, change);
    forall key | key in c'.ledger ensures EntryOk(digest, c', key) {
      assert EntryOk(digest, c, key);
      ChangesKeepGenuine(digest, c.settings, change, c.ledger[key].decision);
    }
    forall t | t in c'.flights ensures FlightOk(digest, c', t) {
      assert FlightOk(digest, c, t);
      ChangesKeepGenuine(digest, c.settings, change, c.flights[t].decision);
    }
  }

  lemma AskKeepsCustody(digest: Payload -> string, c: Custody, origin: Instant, t: nat, ask: Ask)
    requires CustodyInv(digest, c, origin)
    ensures CustodyInv(digest, Happen(digest, c, Asked(t, ask)), origin)
  {
    var c' := Happen(digest, c, Asked(t, ask));
    if Prepare(digest, c.settings, c.ledger, ask).Minted? { MintedAreGenuine(digest, c.settings, c.ledger, ask); }
    forall key | key in c'.ledger ensures EntryOk(digest, c', key) { assert EntryOk(digest, c, key); }
    forall u | u in c'.flights ensures FlightOk(digest, c', u) { assert u in c.flights ==> FlightOk(digest, c, u); }
  }

  lemma SaveKeepsCustody(digest: Payload -> string, c: Custody, origin: Instant, t: nat)
    requires CustodyInv(digest, c, origin) && t in c.flights
    ensures CustodyInv(digest, Happen(digest, c, Saved(t)), origin)
  {
    var c' := Happen(digest, c, Saved(t));
    assert FlightOk(digest, c, t);
    forall key | key in c'.ledger ensures EntryOk(digest, c', key) { assert key in c.ledger ==> EntryOk(digest, c,
        key); }
    forall u | u in c'.flights ensures FlightOk(digest, c', u) { assert FlightOk(digest, c, u); }
  }

  lemma EventsKeepCustody(digest: Payload -> string, c: Custody, origin: Instant, e: Event)
    requires CustodyInv(digest, c, origin) && Production(Happen(digest, c, e).settings)
    ensures CustodyInv(digest, Happen(digest, c, e), origin)
    ensures Keeps(c.ledger, Happen(digest, c, e).ledger)
  {
    match e
    case Reconfigure(change) => ChangeKeepsCustody(digest, c, origin, change);
    case Asked(t, ask) => AskKeepsCustody(digest, c, origin, t, ask);
    case Saved(t) => if t in c.flights { SaveKeepsCustody(digest, c, origin, t); }
  }

  /** No entry is ever lost or replaced. */
  ghost predicate Keeps(a: Ledger, b: Ledger) {
    forall key {:trigger key in b} :: key in a ==> key in b && b[key] == a[key]
  }

  ghost function HappenAll(digest: Payload -> string, c: Custody, es: seq<Event>): Custody
    requires ProductionAll(digest, c, es)
    decreases |es|
  {
    if es == [] then c else HappenAll(digest, Happen(digest, c, es[0]), es[1..])
  }

  /** Every configuration along the way starts up. */
  ghost predicate ProductionAll(digest: Payload -> string, c: Custody, es: seq<Event>)
    decreases |es|
  {
    Production(c.settings) && (es != [] ==> ProductionAll(digest, Happen(digest, c, es[0]), es[1..]))
  }

  lemma {:induction false} HistoriesKeepCustody(digest: Payload -> string, c: Custody, origin: Instant, es: seq<Event>)
    requires ProductionAll(digest, c, es) && CustodyInv(digest, c, origin)
    ensures CustodyInv(digest, HappenAll(digest, c, es), origin)
    ensures Keeps(c.ledger, HappenAll(digest, c, es).ledger)
    decreases |es|
  {
    if es != [] {
      var next := Happen(digest, c, es[0]);
      EventsKeepCustody(digest, c, origin, es[0]);
      HistoriesKeepCustody(digest, next, origin, es[1..]);
    }
  }

  function FirstCustody(s: Settings): Custody {
    Custody(s, map[], map[])
  }

  lemma FirstIsSound(digest: Payload -> string, s: Settings, origin: Instant)
    requires FirstSettings(s, origin)
    ensures CustodyInv(digest, FirstCustody(s), origin)
  {
  }

  /** After any history of rotations, revocations, look-ups and saves from a first
      configuration: the published windows partition time, and every decision in the ledger
      verifies against the current bundle exactly when it has not expired, its key is not
      revoked, and it was issued inside its key's window. No other refusal is possible. */
  lemma IssuedDecisionsStayVerifiable(digest: Payload -> string, s: Settings, origin: Instant, es: seq<Event>,
                                      key: string, at: Instant)
    requires FirstSettings(s, origin) && ProductionAll(digest, FirstCustody(s), es)
    requires key in HappenAll(digest, FirstCustody(s), es).ledger
    ensures var c := HappenAll(digest, FirstCustody(s), es);
            var d := c.ledger[key].decision;
            && Tiled(c.settings, origin)
            && exists k: nat :: k <= |c.settings.retained|
                 && Sole(Published(c.settings), d.payload.signingKeyId, k)
                 && Refuse(digest, d, Published(c.settings), at) == Verdict(Published(c.settings)[k], d, at)
                 && (Refuse(digest, d, Published(c.settings), at).None? <==>
                       && at < d.payload.expiresAt && d.payload.signingKeyId !in c.settings.revoked
                       && InWindow(Published(c.settings)[k], d.payload.issuedAt))
  {
    FirstIsSound(digest, s, origin);
    HistoriesKeepCustody(digest, FirstCustody(s), origin, es);
    var c := HappenAll(digest, FirstCustody(s), es);
    assert EntryOk(digest, c, key);
    var d := c.ledger[key].decision;
    var k: nat :| SignedByPublished(digest, c.settings, d, k);
    ValidIdsAreSole(c.settings, k);
    GenuineVerdict(digest, c.settings, d, k, at);
    assert Sole(Published(c.settings), d.payload.signingKeyId, k);
  }

  // ---- histories on a sensible clock --------------------------------------------

  /** Issue times are not before the signing key's start; a rotation's instant is later than
      every issue time before it, in the ledger or on the way there. */
  ghost predicate Timely(c: Custody, e: Event)
    requires c.settings.notBefore.Some?
  {
    match e
    case Reconfigure(Rotate(at, _, _)) =>
      && (forall key :: key in c.ledger ==> c.ledger[key].decision.payload.issuedAt < at)
      && (forall t :: t in c.flights ==> c.flights[t].decision.payload.issuedAt < at)
    case Reconfigure(Revoke(_)) => true
    case Asked(_, ask) => c.settings.notBefore.value <= ask.issuedAt
    case Saved(_) => true
  }

  ghost predicate TimelyAll(digest: Payload -> string, c: Custody, es: seq<Event>)
    requires ProductionAll(digest, c, es)
    decreases |es|
  {
    es == [] || (Timely(c, es[0]) && TimelyAll(digest, Happen(digest, c, es[0]), es[1..]))
  }

  /** Signed by a published key inside that key's window. */
  ghost predicate InItsWindow(digest: Payload -> string, s: Settings, d: Decision) {
    exists k: nat :: SignedByPublished(digest, s, d, k) && InWindow(Published(s)[k], d.payload.issuedAt)
  }

  ghost predicate EntryTimely(digest: Payload -> string, c: Custody, key: string) {
    key in c.ledger && InItsWindow(digest, c.settings, c.ledger[key].decision)
  }

  ghost predicate FlightTimely(digest: Payload -> string, c: Custody, t: nat) {
    t in c.flights && InItsWindow(digest, c.settings, c.flights[t].decision)
  }

  ghost predicate WindowInv(digest: Payload -> string, c: Custody) {
    && (forall key {:trigger EntryTimely(digest, c, key)} :: key in c.ledger ==> EntryTimely(digest, c, key))
    && (forall t {:trigger FlightTimely(digest, c, t)} :: t in c.flights ==> FlightTimely(digest, c, t))
  }

  lemma ChangeKeepsWindow(digest: Payload -> string, s: Settings, change: Change, d: Decision)
    requires Production(s) && Production(Changed(s, change)) && InItsWindow(digest, s, d)
    requires change.Rotate? ==> d.payload.issuedAt < change.at
    ensures InItsWindow(digest, Changed(s, change), d)
  {
    var k: nat :| SignedByPublished(digest, s, d, k) && InWindow(Published(s)[k], d.payload.issuedAt);
    KeysStayPublished(s, change, k);
    assert SignedByPublished(digest, Changed(s, change), d, Moved(s, change, k));
  }

  lemma EventKeepsWindows(digest: Payload -> string, c: Custody, e: Event)
    requires Production(c.settings) && Production(Happen(digest, c, e).settings) && WindowInv(digest, c) && Timely(c, e)
    ensures WindowInv(digest, Happen(digest, c, e))
  {
    var c' := Happen(digest, c, e);
    if e.Asked? && Prepare(digest, c.settings, c.ledger, e.ask).Minted? {
      assert SignedByPublished(digest, c.settings, Prepare(digest, c.settings, c.ledger, e.ask).decision, 0);
    }
    forall key | key in c'.ledger ensures EntryTimely(digest, c', key) {
      if key in c.ledger {
        assert EntryTimely(digest, c, key);
        if e.Reconfigure? { ChangeKeepsWindow(digest, c.settings, e.change, c.ledger[key].decision); }
      } else {
        assert FlightTimely(digest, c, e.t);
      }
    }
    forall t | t in c'.flights ensures FlightTimely(digest, c', t) {
      if !(e.Asked? && e.t == t) {
        assert FlightTimely(digest, c, t);
        if e.Reconfigure? { ChangeKeepsWindow(digest, c.settings, e.change, c.flights[t].decision); }
      } else if Prepare(digest, c.settings, c.ledger, e.ask).Answered? {
        assert FlightTimely(digest, c, t);
      }
    }
  }

  lemma {:induction false} HistoriesKeepWindows(digest: Payload -> string, c: Custody, es: seq<Event>)
    requires ProductionAll(digest, c, es) && TimelyAll(digest, c, es) && WindowInv(digest, c)
    ensures WindowInv(digest, HappenAll(digest, c, es))
    decreases |es|
  {
    if es != [] {
      EventKeepsWindows(digest, c, es[0]);
      HistoriesKeepWindows(digest, Happen(digest, c, es[0]), es[1..]);
    }
  }

  /** If every rotation comes after the issue times before it, a recorded decision verifies
      against every later bundle until it expires or its key is revoked - and not after. */
  lemma TimelyDecisionsVerify(digest: Payload -> string, s: Settings, origin: Instant, es: seq<Event>, key: string,
                              at: Instant)
    requires FirstSettings(s, origin) && ProductionAll(digest, FirstCustody(s), es)
        && TimelyAll(digest, FirstCustody(s), es)
    requires key in HappenAll(digest, FirstCustody(s), es).ledger
    ensures var c := HappenAll(digest, FirstCustody(s), es);
            var d := c.ledger[key].decision;
            Refuse(digest, d, Published(c.settings), at)
            == if d.payload.signingKeyId in c.settings.revoked then Some(KeyRevoked)
               else if at >= d.payload.expiresAt then Some(SignatureInvalid)
               else None
  {
    FirstIsSound(digest, s, origin);
    HistoriesKeepCustody(digest, FirstCustody(s), origin, es);
    HistoriesKeepWindows(digest, FirstCustody(s), es);
    var c := HappenAll(digest, FirstCustody(s), es);
    assert EntryTimely(digest, c, key);
    var d := c.ledger[key].decision;
    var k: nat :| SignedByPublished(digest, c.settings, d, k) && InWindow(Published(c.settings)[k], d.payload.issuedAt);
    GenuineVerdict(digest, c.settings, d, k, at);
  }

  // ---- where every entry comes from ---------------------------------------------

  /** Event `i` asked for this entry, and its decision certifies the posture it was asked on,
      under the key that signed then. */
  ghost predicate AskedAt(digest: Payload -> string, c: Custody, es: seq<Event>, i: nat, key: string, e: Entry)
    requires ProductionAll(digest, c, es)
  {
    && i < |es| && es[i].Asked? && es[i].ask.key == key && es[i].ask.request == e.request
    && es[i].ask.posture.Ok? && Decidable(es[i].ask, es[i].ask.posture.value)
    && Certifies(e.decision.payload, SettingsAt(digest, c, es, i).keyId, es[i].ask, es[i].ask.posture.value)
    && e.decision == Sign(digest, SettingsAt(digest, c, es, i).publicKey, e.decision.payload)
  }

  /** The settings in force when event `i` happens. */
  ghost function SettingsAt(digest: Payload -> string, c: Custody, es: seq<Event>, i: nat): Settings
    requires ProductionAll(digest, c, es) && i < |es|
    decreases i
  {
    if i == 0 then c.settings else SettingsAt(digest, Happen(digest, c, es[0]), es[1..], i - 1)
  }

  ghost predicate InFlight(c: Custody, t: nat, key: string, e: Entry) {
    t in c.flights && c.flights[t] == Flight(key, e.request, e.decision)
  }

  ghost predicate Entered(c: Custody, key: string, e: Entry) {
    key in c.ledger && c.ledger[key] == e
  }

  lemma AskedLater(digest: Payload -> string, c: Custody, es: seq<Event>, i: nat, key: string, e: Entry)
    requires ProductionAll(digest, c, es) && es != []
    requires AskedAt(digest, Happen(digest, c, es[0]), es[1..], i, key, e)
    ensures AskedAt(digest, c, es, i + 1, key, e)
  {
  }

  lemma AskedFirst(digest: Payload -> string, c: Custody, es: seq<Event>, t: nat, key: string, e: Entry)
    requires ProductionAll(digest, c, es) && es != []
    requires InFlight(Happen(digest, c, es[0]), t, key, e) && !InFlight(c, t, key, e)
    ensures AskedAt(digest, c, es, 0, key, e)
  {
    PreparationIsExact(digest, c.settings, c.ledger, es[0].ask);
  }

  ghost predicate Accounted(digest: Payload -> string, c: Custody, es: seq<Event>, key: string, e: Entry)
    requires ProductionAll(digest, c, es)
  {
    || Entered(c, key, e)
    || (exists t: nat :: InFlight(c, t, key, e))
    || (exists i: nat :: AskedAt(digest, c, es, i, key, e))
  }

  lemma AccountedBefore(digest: Payload -> string, c: Custody, es: seq<Event>, key: string, e: Entry)
    requires ProductionAll(digest, c, es) && es != []
    requires Accounted(digest, Happen(digest, c, es[0]), es[1..], key, e)
    ensures Accounted(digest, c, es, key, e)
  {
    var next := Happen(digest, c, es[0]);
    if Entered(next, key, e) {
      if !Entered(c, key, e) { assert InFlight(c, es[0].t, key, e); }
    } else if t: nat :| InFlight(next, t, key, e) {
      if !InFlight(c, t, key, e) { AskedFirst(digest, c, es, t, key, e); }
    } else {
      var i: nat :| AskedAt(digest, next, es[1..], i, key, e);
      AskedLater(digest, c, es, i, key, e);
    }
  }

  lemma {:induction false} EntriesAreAccounted(digest: Payload -> string, c: Custody, es: seq<Event>, key: string,
                                               e: Entry)
    requires ProductionAll(digest, c, es) && Entered(HappenAll(digest, c, es), key, e)
    ensures Accounted(digest, c, es, key, e)
    decreases |es|
  {
    if es != [] {
      EntriesAreAccounted(digest, Happen(digest, c, es[0]), es[1..], key, e);
      AccountedBefore(digest, c, es, key, e);
    }
  }

  /** Every decision a ledger ever holds was asked for under its key, and certifies the posture
      it was asked on, signed with the key that signed then. */
  lemma EntriesCertifyTheirPosture(digest: Payload -> string, s: Settings, es: seq<Event>, key: string) returns (i: nat)
    requires ProductionAll(digest, FirstCustody(s), es) && key in HappenAll(digest, FirstCustody(s), es).ledger
    ensures AskedAt(digest, FirstCustody(s), es, i, key, HappenAll(digest, FirstCustody(s), es).ledger[key])
  {
    var c := FirstCustody(s);
    var e := HappenAll(digest, c, es).ledger[key];
    EntriesAreAccounted(digest, c, es, key, e);
    i :| AskedAt(digest, c, es, i, key, e);
  }

  // ---- replay -------------------------------------------------------------------

  /** Every answer is what the ledger holds under its idempotency key. */
  lemma AnswersAreRecorded(digest: Payload -> string, c: Custody, e: Event)
    requires c.settings.notBefore.Some?
    requires ReplyOf(digest, c, e).Some? && ReplyOf(digest, c, e).value.1.Ok?
    ensures var reply := ReplyOf(digest, c, e).value;
            var c' := Happen(digest, c, e);
            reply.0 in c'.ledger && c'.ledger[reply.0].decision == reply.1.value
  {
  }

  /** One idempotency key, one decision: whatever processes race to save, whatever is
      reconfigured between, all successful answers under a key are the same decision. */
  lemma OneDecisionPerKey(digest: Payload -> string, c: Custody, origin: Instant, e: Event, es: seq<Event>, e': Event)
    requires CustodyInv(digest, c, origin) && ProductionAll(digest, c, [e] + es)
    requires ReplyOf(digest, c, e).Some? && ReplyOf(digest, c, e).value.1.Ok?
    requires var now := HappenAll(digest, c, [e] + es);
             && ReplyOf(digest, now, e').Some? && ReplyOf(digest, now, e').value.1.Ok?
             && ReplyOf(digest, now, e').value.0 == ReplyOf(digest, c, e).value.0
    ensures ReplyOf(digest, HappenAll(digest, c, [e] + es), e').value.1 == ReplyOf(digest, c, e).value.1
  {
    assert ([e] + es)[0] == e && ([e] + es)[1..] == es;
    var next, now := Happen(digest, c, e), HappenAll(digest, c, [e] + es);
    AnswersAreRecorded(digest, c, e);
    EventsKeepCustody(digest, c, origin, e);
    HistoriesKeepCustody(digest, next, origin, es);
    AnswersAreRecorded(digest, now, e');
    EventsKeepCustody(digest, now, origin, e');
  }

  /** After any further history, asking again under a recorded idempotency key answers the
      recorded decision, whatever the document has become - unless the key that signs by
      then is revoked, no tenant asks, or the request differs, which conflicts. */
  lemma DecisionsReplay(digest: Payload -> string, c: Custody, origin: Instant, es: seq<Event>, ask: Ask)
    requires CustodyInv(digest, c, origin) && ask.key in c.ledger && ProductionAll(digest, c, es)
    ensures var now := HappenAll(digest, c, es);
            IssueDecision(digest, now.settings, now.ledger, ask)
            == Issued(now.ledger, if now.settings.keyId in now.settings.revoked then Err(SigningKeyRevoked)
                                  else if ask.request.tenantId.None? then Err(TenantRequired)
                                  else if ask.request == c.ledger[ask.key].request then Ok(c.ledger[ask.key].decision)
                                  else Err(IdempotencyConflict))
  {
    HistoriesKeepCustody(digest, c, origin, es);
  }

  /** Only the current signing key stops the ledger: a decision whose own key was rotated
      out and then revoked is still replayed, and every consumer refuses it. */
  lemma WithdrawnDecisionsAreReplayed(digest: Payload -> string, c: Custody, origin: Instant, ask: Ask, at: Instant)
    requires CustodyInv(digest, c, origin) && ask.key in c.ledger && c.ledger[ask.key].request == ask.request
    ensures var d := c.ledger[ask.key].decision;
            && (IssueDecision(digest, c.settings, c.ledger, ask).reply == Ok(d)
                <==> c.settings.keyId !in c.settings.revoked)
            && (Refuse(digest, d, Published(c.settings), at) == Some(KeyRevoked)
                <==> d.payload.signingKeyId in c.settings.revoked)
  {
    assert EntryOk(digest, c, ask.key);
    var d := c.ledger[ask.key].decision;
    var k: nat :| SignedByPublished(digest, c.settings, d, k);
    GenuineVerdict(digest, c.settings, d, k, at);
  }

  /** The history that gets there: issue, rotate, revoke the key rotated out. */
  function Withdrawal(s: Settings, ask: Ask, at: Instant, keyId: string, publicKey: PublicKey): seq<Event> {
    [Asked(0, ask), Saved(0), Reconfigure(Rotate(at, keyId, publicKey)), Reconfigure(Revoke(s.keyId))]
  }

  lemma RotateThenRevokeStartsUp(s: Settings, origin: Instant, at: Instant, keyId: string, publicKey: PublicKey)
    requires FirstSettings(s, origin) && s.revoked == {} && origin < at && keyId != s.keyId && !Ephemeral(keyId)
    ensures var s1 := Changed(s, Rotate(at, keyId, publicKey));
            Production(s1) && Production(Changed(s1, Revoke(s.keyId)))
  {
    var s1 := Changed(s, Rotate(at, keyId, publicKey));
    assert s1.retained == [Retained(s.keyId, s.publicKey, origin, at)];
    assert s1.retained[0].keyId == s.keyId;
  }

  /** From any first configuration, for any request it would grant: the answer is recorded,
      replayed after its key was withdrawn, and refused by every consumer. */
  lemma WithdrawalIsReachable(digest: Payload -> string, s: Settings, origin: Instant, ask: Ask,
                              at: Instant, keyId: string, publicKey: PublicKey, checkedAt: Instant)
    requires FirstSettings(s, origin) && s.revoked == {} && origin < at && keyId != s.keyId && !Ephemeral(keyId)
    requires Prepare(digest, s, map[], ask).Minted?
    ensures var es := Withdrawal(s, ask, at, keyId, publicKey);
            && ProductionAll(digest, FirstCustody(s), es)
            && var c := HappenAll(digest, FirstCustody(s), es);
            && ask.key in c.ledger && c.settings.keyId !in c.settings.revoked
            && IssueDecision(digest, c.settings, c.ledger, ask).reply == Ok(c.ledger[ask.key].decision)
            && Refuse(digest, c.ledger[ask.key].decision, Published(c.settings), checkedAt) == Some(KeyRevoked)
  {
    var es := Withdrawal(s, ask, at, keyId, publicKey);
    var s1 := Changed(s, Rotate(at, keyId, publicKey));
    var s2 := Changed(s1, Revoke(s.keyId));
    RotateThenRevokeStartsUp(s, origin, at, keyId, publicKey);
    var d := Prepare(digest, s, map[], ask).decision;
    var ledger := map[ask.key := Entry(ask.request, d)];
    var c1 := Custody(s, map[], map[0 := Flight(ask.key, ask.request, d)]);
    assert Happen(digest, FirstCustody(s), es[0]) == c1;
    assert Happen(digest, c1, es[1]) == Custody(s, ledger, map[]);
    assert HappenAll(digest, Custody(s2, ledger, map[]), []) == Custody(s2, ledger, map[]);
    HappensIn(digest, Custody(s1, ledger, map[]), es[3], [], Custody(s2, ledger, map[]));
    assert es[2..] == [es[2]] + [es[3]] && es[1..] == [es[1]] + es[2..] && es == [es[0]] + es[1..];
    HappensIn(digest, Custody(s, ledger, map[]), es[2], [es[3]], Custody(s1, ledger, map[]));
    HappensIn(digest, c1, es[1], es[2..], Custody(s, ledger, map[]));
    HappensIn(digest, FirstCustody(s), es[0], es[1..], c1);
    FirstIsSound(digest, s, origin);
    HistoriesKeepCustody(digest, FirstCustody(s), origin, es);
    WithdrawnDecisionsAreReplayed(digest, Custody(s2, ledger, map[]), origin, ask, checkedAt);
  }

  lemma HappensIn(digest: Payload -> string, c: Custody, e: Event, es: seq<Event>, next: Custody)
    requires Production(c.settings) && next == Happen(digest, c, e) && ProductionAll(digest, next, es)
    ensures ProductionAll(digest, c, [e] + es) && HappenAll(digest, c, [e] + es) == HappenAll(digest, next, es)
  {
    assert ([e] + es)[0] == e && ([e] + es)[1..] == es;
  }
}
