/** The keys that sign lifecycle decisions: what settings publish, with which windows, what a
    consumer refuses, and what rotations and revocations leave in place. The signature
    scheme is ideal: only the holder of a key signs, and for one message. */
module LifecycleKeys {
  import opened Records
  import opened DecisionActions

  type PublicKey = string

  /** What a caller asks a decision about; two requests are compared as a whole, by their
      fingerprints. */
  datatype Request = Request(
    documentId: DocumentId,
    tenantId: Option<string>,
    evidencePackId: string,
    candidateId: string,
    sourceCorrelationRef: string)

  /** The hash of an idempotency key and a fingerprint, as ideal as the signature scheme. */
  datatype DecisionId = HashOf(key: string, request: Request)

  /** The signed fields, apart from those that are the same in every decision. */
  datatype Payload = Payload(
    decisionId: DecisionId,
    documentId: DocumentId,
    evidencePackId: string,
    candidateId: string,
    sourceCorrelationRef: string,
    tenantId: string,
    region: string,
    retentionPolicyId: string,
    holdStatus: HoldStatus,
    holdCount: nat,
    purgeStatus: PurgeStatus,
    action: Action,
    disposalAuthorized: bool,
    reason: string,
    issuedAt: Instant,
    expiresAt: Instant,
    correlationId: string,
    traceId: string,
    signingKeyId: string)

  datatype Signature = Ed25519(signer: PublicKey, message: Payload) | Malformed

  datatype Decision = Decision(payload: Payload, digest: string, signature: Signature)

  datatype KeyStatus = Signing | Rotated | Revoked

  datatype VerificationKey = VerificationKey(
    keyId: string,
    publicKey: PublicKey,
    managed: bool,
    status: KeyStatus,
    notBefore: Instant,
    notAfter: Option<Instant>)

  predicate InWindow(k: VerificationKey, at: Instant) {
    k.notBefore <= at && (k.notAfter.Some? ==> at < k.notAfter.value)
  }

  // ---- settings and the bundle they publish -------------------------------------

  datatype Retained = Retained(keyId: string, publicKey: PublicKey, notBefore: Instant, notAfter: Instant)

  /** `publicKey` belongs to the configured key or, without one, to the generated one. */
  datatype Settings = Settings(
    localProfile: bool,
    configured: bool,
    keyId: string,
    publicKey: PublicKey,
    notBefore: Option<Instant>,
    retained: seq<Retained>,
    revoked: set<string>)

  datatype SettingsError =
    | UnmanagedKey
    | NoKeyStart
    | InvertedWindow
    | RepeatedRetainedId
    | ActiveIdRetained
    | UnknownRevokedId

  predicate Ephemeral(keyId: string) {
    "ephemeral-local" <= keyId
  }

  function Validate(s: Settings): Option<SettingsError> {
    if !s.localProfile && (!s.configured || Ephemeral(s.keyId)) then Some(UnmanagedKey)
    else if !s.localProfile && s.notBefore.None? then Some(NoKeyStart)
    else if exists i :: 0 <= i < |s.retained| && s.retained[i].notAfter <= s.retained[i].notBefore
        then Some(InvertedWindow)
    else if exists i, j :: 0 <= i < j < |s.retained| && s.retained[i].keyId == s.retained[j].keyId
        then Some(RepeatedRetainedId)
    else if exists i :: 0 <= i < |s.retained| && s.retained[i].keyId == s.keyId then Some(ActiveIdRetained)
    else if exists r :: r in s.revoked && r != s.keyId && forall i :: 0 <= i < |s.retained| ==> s.retained[i].keyId != r
      then Some(UnknownRevokedId)
    else None
  }

  const EPHEMERAL_KEY_START: Instant := 0

  function StatusFor(s: Settings, keyId: string, unrevoked: KeyStatus): KeyStatus {
    if keyId in s.revoked then Revoked else unrevoked
  }

  function RetainedEntry(s: Settings, r: Retained): VerificationKey {
    VerificationKey(r.keyId, r.publicKey, true, StatusFor(s, r.keyId, Rotated), r.notBefore, Some(r.notAfter))
  }

  /** `verification_keys`: the signing key, then every retained key. */
  function Published(s: Settings): (keys: seq<VerificationKey>)
    ensures |keys| == |s.retained| + 1
  {
    [VerificationKey(s.keyId, s.publicKey, !Ephemeral(s.keyId), StatusFor(s, s.keyId, Signing),
                     if s.notBefore.Some? then s.notBefore.value else EPHEMERAL_KEY_START, None)]
    + seq(|s.retained|, i requires 0 <= i < |s.retained| => RetainedEntry(s, s.retained[i]))
  }

  // ---- what a consumer does -----------------------------------------------------

  function Select(keys: seq<VerificationKey>, id: string): seq<VerificationKey> {
    if keys == [] then []
    else (if keys[0].keyId == id then [keys[0]] else []) + Select(keys[1..], id)
  }

  predicate Verifies(digest: Payload -> string, d: Decision, key: PublicKey, at: Instant) {
    at < d.payload.expiresAt && d.digest == digest(d.payload) && d.signature == Ed25519(key, d.payload)
  }

  datatype Refusal =
    | KeyNotPublished
    | KeyIdNotUnique
    | KeyRevoked
    | KeyIsEphemeral
    | KeyNotYetValid
    | KeyAlreadyRotated
    | SignatureInvalid

  /** `refuse_lifecycle_decision_against_bundle`. */
  function Refuse(digest: Payload -> string, d: Decision, bundle: seq<VerificationKey>, at: Instant): Option<Refusal> {
    var matching := Select(bundle, d.payload.signingKeyId);
    if matching == [] then Some(KeyNotPublished)
    else if |matching| > 1 then Some(KeyIdNotUnique)
    else
      var key := matching[0];
      if key.status == Revoked then Some(KeyRevoked)
      else if !key.managed then Some(KeyIsEphemeral)
      else if d.payload.issuedAt < key.notBefore then Some(KeyNotYetValid)
      else if key.notAfter.Some? && d.payload.issuedAt >= key.notAfter.value then Some(KeyAlreadyRotated)
      else if !Verifies(digest, d, key.publicKey, at) then Some(SignatureInvalid)
      else None
  }

  /** The one entry of a bundle with this id. */
  ghost predicate Sole(keys: seq<VerificationKey>, id: string, k: nat) {
    k < |keys| && keys[k].keyId == id && forall i :: 0 <= i < |keys| && i != k ==> keys[i].keyId != id
  }

  lemma {:induction false} SelectNone(keys: seq<VerificationKey>, id: string)
    ensures Select(keys, id) == [] <==> forall i :: 0 <= i < |keys| ==> keys[i].keyId != id
  {
    if keys != [] {
      SelectNone(keys[1..], id);
      if Select(keys[1..], id) == [] {
        forall i | 1 <= i < |keys| ensures keys[i].keyId != id { assert keys[i] == keys[1..][i - 1]; }
      } else {
        var i :| 0 <= i < |keys| - 1 && keys[1..][i].keyId == id;
        assert keys[i + 1].keyId == id;
      }
    }
  }

  lemma {:induction false} SelectSole(keys: seq<VerificationKey>, id: string, k: nat)
    requires Sole(keys, id, k)
    ensures Select(keys, id) == [keys[k]]
  {
    if k == 0 {
      forall i | 0 <= i < |keys| - 1 ensures keys[1..][i].keyId != id { assert keys[1..][i] == keys[i + 1]; }
      SelectNone(keys[1..], id);
    } else {
      SelectSole(keys[1..], id, k - 1);
    }
  }

  lemma {:induction false} SelectedIsSole(keys: seq<VerificationKey>, id: string)
    requires |Select(keys, id)| == 1
    ensures exists k: nat :: Sole(keys, id, k)
  {
    if keys[0].keyId == id {
      assert Select(keys[1..], id) == [];
      SelectNone(keys[1..], id);
      forall i | 0 <= i < |keys| && i != 0 ensures keys[i].keyId != id { assert keys[i] == keys[1..][i - 1]; }
      assert Sole(keys, id, 0);
    } else {
      SelectedIsSole(keys[1..], id);
      var k: nat :| Sole(keys[1..], id, k);
      forall i | 0 <= i < |keys| && i != k + 1
          ensures keys[i].keyId != id { if i > 0 { assert keys[i] == keys[1..][i - 1]; } }
      assert Sole(keys, id, k + 1);
    }
  }

  /** An unrevoked, managed key whose half-open window holds the claimed issue time, and
      whose holder signed exactly these fields, before the decision expires. */
  ghost predicate Accepting(digest: Payload -> string, d: Decision, key: VerificationKey, at: Instant) {
    && key.status != Revoked && key.managed
    && key.notBefore <= d.payload.issuedAt && (key.notAfter.None? || d.payload.issuedAt < key.notAfter.value)
    && at < d.payload.expiresAt
    && d.digest == digest(d.payload) && d.signature == Ed25519(key.publicKey, d.payload)
  }

  /** Why the one entry with the decision's key id refuses it, in the order a consumer checks. */
  ghost predicate RefusedBy(digest: Payload -> string, d: Decision, key: VerificationKey, at: Instant,
                            refusal: Option<Refusal>)
  {
    var issued, trusted := d.payload.issuedAt, key.status != Revoked && key.managed;
    var late := key.notAfter.Some? && key.notAfter.value <= issued;
    && (refusal == Some(KeyRevoked) <==> key.status == Revoked)
    && (refusal == Some(KeyIsEphemeral) <==> key.status != Revoked && !key.managed)
    && (refusal == Some(KeyNotYetValid) <==> trusted && issued < key.notBefore)
    && (refusal == Some(KeyAlreadyRotated) <==> trusted && key.notBefore <= issued && late)
    && (refusal == Some(SignatureInvalid) <==>
          trusted && key.notBefore <= issued && !late && !Accepting(digest, d, key, at))
    && (refusal == None <==> Accepting(digest, d, key, at))
  }

  /** Every refusal has its condition: an id nobody published, an id published twice, or what
      the one entry with that id says. */
  lemma RefusalsAreExact(digest: Payload -> string, d: Decision, bundle: seq<VerificationKey>, at: Instant)
    ensures var refusal, id := Refuse(digest, d, bundle, at), d.payload.signingKeyId;
            && (refusal == Some(KeyNotPublished) <==> forall i :: 0 <= i < |bundle| ==> bundle[i].keyId != id)
            && (refusal == Some(KeyIdNotUnique) <==>
                  exists i, j :: 0 <= i < j < |bundle| && bundle[i].keyId == id && bundle[j].keyId == id)
            && (forall k: nat {:trigger Sole(bundle, id, k)} :: Sole(bundle, id, k) ==>
                  RefusedBy(digest, d, bundle[k], at, refusal))
  {
    var id := d.payload.signingKeyId;
    SelectNone(bundle, id);
    if k: nat :| Sole(bundle, id, k) {
      SelectSole(bundle, id, k);
      forall j: nat | Sole(bundle, id, j) ensures j == k {}
    } else {
      if |Select(bundle, id)| == 1 { SelectedIsSole(bundle, id); }
      if Select(bundle, id) != [] { SelectedTwice(bundle, id); }
    }
  }

  lemma SelectedTwice(keys: seq<VerificationKey>, id: string)
    requires (forall k: nat :: !Sole(keys, id, k)) && Select(keys, id) != []
    ensures exists i, j :: 0 <= i < j < |keys| && keys[i].keyId == id && keys[j].keyId == id
  {
    SelectNone(keys, id);
    var k: nat :| k < |keys| && keys[k].keyId == id;
    assert !Sole(keys, id, k);
    var j :| 0 <= j < |keys| && j != k && keys[j].keyId == id;
    if j < k { assert keys[j].keyId == id && keys[k].keyId == id; }
  }

  /** For any bundle and any decision, forged ones included: acceptance needs exactly one
      entry with the key id, unrevoked and managed, whose window contains the claimed issue
      time, whose holder signed exactly these fields, before the decision expires. */
  lemma AcceptanceIsExact(digest: Payload -> string, d: Decision, bundle: seq<VerificationKey>, at: Instant)
    ensures Refuse(digest, d, bundle, at).None?
            <==> exists k: nat :: Sole(bundle, d.payload.signingKeyId, k) && Accepting(digest, d, bundle[k], at)
  {
    var id := d.payload.signingKeyId;
    if k: nat :| Sole(bundle, id, k) { SelectSole(bundle, id, k); }
    if |Select(bundle, id)| == 1 {
      SelectedIsSole(bundle, id);
      var k: nat :| Sole(bundle, id, k);
      SelectSole(bundle, id, k);
    }
  }

  // ---- validated settings -------------------------------------------------------

  /** The bundle: the signing key under its own id, open from its start and managed unless its
      id marks it as generated; then every retained key with its closed window; each active,
      rotated or, whenever its id is revoked, revoked. */
  lemma PublishedIsExact(s: Settings, k: nat)
    requires k <= |s.retained|
    ensures var key := Published(s)[k];
            && |Published(s)| == 1 + |s.retained|
            && (key.status == Revoked <==> key.keyId in s.revoked)
            && (k == 0 ==>
                  && key.keyId == s.keyId && key.publicKey == s.publicKey && key.notAfter.None?
                  && (key.managed <==> !("ephemeral-local" <= s.keyId))
                  && (key.status == Signing || key.status == Revoked)
                  && key.notBefore == (if s.notBefore.Some? then s.notBefore.value else 0))
            && (k > 0 ==>
                  var r := s.retained[k - 1];
                  && key.keyId == r.keyId && key.publicKey == r.publicKey && key.managed
                  && (key.status == Rotated || key.status == Revoked)
                  && key.notBefore == r.notBefore && key.notAfter == Some(r.notAfter))
  {
  }

  /** Key ids as they are published: the signing key's, then the retained ones. */
  function KeyIds(s: Settings): seq<string> {
    [s.keyId] + seq(|s.retained|, i requires 0 <= i < |s.retained| => s.retained[i].keyId)
  }

  /** Settings start up exactly when, outside the local profile, a managed signing key with a
      start is configured, every retained window is a window, every id is published once, and
      only published ids are revoked. */
  lemma ValidSettingsAreExact(s: Settings)
    ensures Validate(s).None?
            <==> && (s.localProfile || (s.configured && !("ephemeral-local" <= s.keyId) && s.notBefore.Some?))
                 && (forall i :: 0 <= i < |s.retained| ==> s.retained[i].notBefore < s.retained[i].notAfter)
                 && (forall i, j :: 0 <= i < j < |KeyIds(s)| ==> KeyIds(s)[i] != KeyIds(s)[j])
                 && (forall r :: r in s.revoked ==> r in KeyIds(s))
  {
    var ids, n := KeyIds(s), |s.retained|;
    assert forall i :: 0 <= i < n ==> ids[i + 1] == s.retained[i].keyId;
    if Validate(s).None? {
      forall i, j | 0 <= i < j < |ids| ensures ids[i] != ids[j] {
        assert ids[j] == s.retained[j - 1].keyId;
        if i > 0 { assert s.retained[i - 1].keyId != s.retained[j - 1].keyId; }
      }
      forall r | r in s.revoked ensures r in ids {
        if r != s.keyId {
          var i :| 0 <= i < n && s.retained[i].keyId == r;
          assert ids[i + 1] == r;
        }
      }
    }
    if forall i, j :: 0 <= i < j < |ids| ==> ids[i] != ids[j] {
      forall i, j | 0 <= i < j < n ensures s.retained[i].keyId != s.retained[j].keyId {
        assert ids[i + 1] != ids[j + 1];
      }
      forall i | 0 <= i < n ensures s.retained[i].keyId != s.keyId { assert ids[0] != ids[i + 1]; }
    }
    if forall r :: r in s.revoked ==> r in ids {
      forall r | r in s.revoked && r != s.keyId ensures exists i :: 0 <= i < n && s.retained[i].keyId == r {
        var i :| 0 <= i < |ids| && ids[i] == r;
        assert s.retained[i - 1].keyId == r;
      }
    }
  }

  /** The first check that fails names what stops the service from starting. */
  lemma StartUpRefusalsAreExact(s: Settings)
    ensures var refusal, n := Validate(s), |s.retained|;
            var managed := s.localProfile || (s.configured && !("ephemeral-local" <= s.keyId));
            var started := s.localProfile || s.notBefore.Some?;
            var windows := forall i :: 0 <= i < n ==> s.retained[i].notBefore < s.retained[i].notAfter;
            var once := forall i, j :: 0 <= i < j < n ==> s.retained[i].keyId != s.retained[j].keyId;
            var apart := forall i :: 0 <= i < n ==> s.retained[i].keyId != s.keyId;
            && (refusal == Some(UnmanagedKey) <==> !managed)
            && (refusal == Some(NoKeyStart) <==> managed && !started)
            && (refusal == Some(InvertedWindow) <==> managed && started && !windows)
            && (refusal == Some(RepeatedRetainedId) <==> managed && started && windows && !once)
            && (refusal == Some(ActiveIdRetained) <==> managed && started && windows && once && !apart)
            && (refusal == Some(UnknownRevokedId) <==>
                  && managed && started && windows && once && apart
                  && exists r :: r in s.revoked && r != s.keyId && forall i :: 0 <= i < n ==> s.retained[i].keyId != r)
  {
  }

  /** Settings that validate publish no id twice, so every published key can be selected. */
  lemma ValidIdsAreSole(s: Settings, k: nat)
    requires Validate(s).None? && k <= |s.retained|
    ensures Sole(Published(s), Published(s)[k].keyId, k)
  {
    var keys := Published(s);
    forall i | 0 <= i < |keys| && i != k ensures keys[i].keyId != keys[k].keyId {
      if i > 0 && k > 0 {
        var a, b := if i < k then i - 1 else k - 1, if i < k then k - 1 else i - 1;
        assert s.retained[a].keyId != s.retained[b].keyId;
      }
    }
  }

  datatype Change = Rotate(at: Instant, keyId: string, publicKey: PublicKey) | Revoke(keyId: string)

  /** The rotation procedure, and withdrawing a key's signatures. */
  function Changed(s: Settings, c: Change): Settings
    requires s.notBefore.Some?
  {
    match c
    case Rotate(at, id, key) =>
      s.(keyId := id, publicKey := key, notBefore := Some(at),
         retained := s.retained + [Retained(s.keyId, s.publicKey, s.notBefore.value, at)])
    case Revoke(id) => s.(revoked := s.revoked + {id})
  }

  ghost predicate Production(s: Settings) {
    Validate(s).None? && !s.localProfile && s.notBefore.Some?
  }

  /** Retained windows abut, the first one starts at `origin`, the last one ends where the
      signing key's begins. */
  ghost predicate Tiled(s: Settings, origin: Instant) {
    && s.notBefore.Some?
    && (forall i :: 0 <= i < |s.retained| ==> s.retained[i].notBefore < s.retained[i].notAfter)
    && (forall i :: 0 <= i < |s.retained| - 1 ==> s.retained[i].notAfter == s.retained[i + 1].notBefore)
    && (if s.retained == [] then s.notBefore == Some(origin)
        else s.retained[0].notBefore == origin && s.notBefore == Some(s.retained[|s.retained| - 1].notAfter))
  }

  lemma ChangesKeepTiling(s: Settings, origin: Instant, c: Change)
    requires Production(s) && Tiled(s, origin) && Production(Changed(s, c))
    ensures Tiled(Changed(s, c), origin)
  {
    var s' := Changed(s, c);
    forall i | 0 <= i < |s'.retained| ensures s'.retained[i].notBefore < s'.retained[i].notAfter {
      assert !(s'.retained[i].notAfter <= s'.retained[i].notBefore);
    }
  }

  lemma {:induction false} WindowsOrdered(s: Settings, origin: Instant, i: nat, j: nat)
    requires Tiled(s, origin) && i < j < |s.retained|
    ensures s.retained[i].notAfter <= s.retained[j].notBefore
    decreases j
  {
    if i + 1 < j { WindowsOrdered(s, origin, i, j - 1); }
  }

  /** The retained window containing `at`, found from the end. */
  lemma {:induction false} SomeWindow(s: Settings, origin: Instant, at: Instant, n: nat) returns (k: nat)
    requires Tiled(s, origin) && origin <= at && 0 < n <= |s.retained| && at < s.retained[n - 1].notAfter
    ensures k < n && s.retained[k].notBefore <= at < s.retained[k].notAfter
  {
    if s.retained[n - 1].notBefore <= at { k := n - 1; }
    else { k := SomeWindow(s, origin, at, n - 1); }
  }

  lemma KeysStartLater(s: Settings, origin: Instant, i: nat)
    requires Tiled(s, origin) && i <= |s.retained|
    ensures Published(s)[i].notBefore >= origin
  {
    var n := |s.retained|;
    if i > 1 { WindowsOrdered(s, origin, 0, i - 1); }
    if i == 0 && n > 1 { WindowsOrdered(s, origin, 0, n - 1); }
  }

  lemma WindowsDisjoint(s: Settings, origin: Instant, at: Instant, i: nat, j: nat)
    requires Tiled(s, origin) && i < j <= |s.retained|
    ensures !(InWindow(Published(s)[i], at) && InWindow(Published(s)[j], at))
  {
    var n := |s.retained|;
    assert Published(s)[j] == RetainedEntry(s, s.retained[j - 1]);
    if i > 0 { WindowsOrdered(s, origin, i - 1, j - 1); }
    else if j < n { WindowsOrdered(s, origin, j - 1, n - 1); }
  }

  ghost predicate OnlyWindow(keys: seq<VerificationKey>, at: Instant, k: nat) {
    k < |keys| && InWindow(keys[k], at) && forall i :: 0 <= i < |keys| && i != k ==> !InWindow(keys[i], at)
  }

  /** The published half-open windows partition all time from the first key's start. */
  lemma WindowsPartitionTime(s: Settings, origin: Instant, at: Instant)
    requires Tiled(s, origin)
    ensures at >= origin <==> exists k: nat :: OnlyWindow(Published(s), at, k)
    ensures at < origin ==> forall k :: 0 <= k < |Published(s)| ==> !InWindow(Published(s)[k], at)
  {
    var keys := Published(s);
    forall k | 0 <= k < |keys| && at < origin ensures !InWindow(keys[k], at) { KeysStartLater(s, origin, k); }
    if at >= origin {
      var k: nat := 0;
      if at < s.notBefore.value {
        k := SomeWindow(s, origin, at, |s.retained|);
        k := k + 1;
      }
      assert InWindow(keys[k], at);
      forall i | 0 <= i < |keys| && i != k ensures !InWindow(keys[i], at) {
        if i < k { WindowsDisjoint(s, origin, at, i, k); } else { WindowsDisjoint(s, origin, at, k, i); }
      }
      assert OnlyWindow(keys, at, k);
    }
  }

  // ---- genuine decisions under changing settings --------------------------------

  function Sign(digest: Payload -> string, key: PublicKey, payload: Payload): Decision {
    Decision(payload, digest(payload), Ed25519(key, payload))
  }

  ghost predicate SignedByPublished(digest: Payload -> string, s: Settings, d: Decision, k: nat) {
    k <= |s.retained| && var key := Published(s)[k];
    key.keyId == d.payload.signingKeyId && key.managed && d == Sign(digest, key.publicKey, d.payload)
  }

  ghost predicate Genuine(digest: Payload -> string, s: Settings, d: Decision) {
    exists k: nat :: SignedByPublished(digest, s, d, k)
  }

  /** Where entry `k` of a bundle stands after a change. */
  function Moved(s: Settings, c: Change, k: nat): nat {
    if c.Rotate? && k == 0 then |s.retained| + 1 else k
  }

  /** A change keeps every published key under its id, with its public half and its start;
      it closes only the signing key's window, and revokes only the key it names. */
  lemma KeysStayPublished(s: Settings, c: Change, k: nat)
    requires Production(s) && Production(Changed(s, c)) && k <= |s.retained|
    ensures Moved(s, c, k) <= |Changed(s, c).retained|
    ensures var was, now := Published(s)[k], Published(Changed(s, c))[Moved(s, c, k)];
            && now.keyId == was.keyId && now.publicKey == was.publicKey && now.managed == was.managed
            && now.notBefore == was.notBefore
            && now.notAfter == (if c.Rotate? && k == 0 then Some(c.at) else was.notAfter)
            && (now.status == Revoked <==> was.status == Revoked || c == Revoke(was.keyId))
  {
  }

  /** A rotation publishes the new key under its id, open from the instant of rotation; a
      revocation publishes the same keys and adds none. */
  lemma ChangesPublish(s: Settings, c: Change)
    requires Production(s) && Production(Changed(s, c))
    ensures var now := Published(Changed(s, c));
            && |now| == |Published(s)| + (if c.Rotate? then 1 else 0)
            && (c.Rotate? ==>
                  && now[0].keyId == c.keyId && now[0].publicKey == c.publicKey && now[0].managed
                  && now[0].notBefore == c.at && now[0].notAfter.None?)
            && Changed(s, c).revoked == s.revoked + (if c.Revoke? then {c.keyId} else {})
  {
  }

  lemma ChangesKeepGenuine(digest: Payload -> string, s: Settings, c: Change, d: Decision)
    requires Production(s) && Production(Changed(s, c)) && Genuine(digest, s, d)
    ensures Genuine(digest, Changed(s, c), d)
  {
    var k: nat :| SignedByPublished(digest, s, d, k);
    KeysStayPublished(s, c, k);
    assert SignedByPublished(digest, Changed(s, c), d, Moved(s, c, k));
  }

  /** The verdict a consumer reaches on a genuine decision, from the key entry alone. */
  function Verdict(key: VerificationKey, d: Decision, at: Instant): Option<Refusal> {
    if key.status == Revoked then Some(KeyRevoked)
    else if d.payload.issuedAt < key.notBefore then Some(KeyNotYetValid)
    else if key.notAfter.Some? && d.payload.issuedAt >= key.notAfter.value then Some(KeyAlreadyRotated)
    else if at >= d.payload.expiresAt then Some(SignatureInvalid)
    else None
  }

  lemma GenuineVerdict(digest: Payload -> string, s: Settings, d: Decision, k: nat, at: Instant)
    requires Production(s) && SignedByPublished(digest, s, d, k)
    ensures Refuse(digest, d, Published(s), at) == Verdict(Published(s)[k], d, at)
  {
    ValidIdsAreSole(s, k);
    SelectSole(Published(s), d.payload.signingKeyId, k);
  }

  ghost predicate FirstSettings(s: Settings, origin: Instant) {
    Production(s) && s.retained == [] && s.notBefore == Some(origin)
  }

  /** The signing key's decision, issued inside its open window and before a rotation,
      verifies under the old bundle and the new one alike. */
  lemma RotationKeepsHistory(digest: Payload -> string, s: Settings, change: Change, payload: Payload, at: Instant)
    requires Production(s) && Production(Changed(s, change)) && change.Rotate?
    requires payload.signingKeyId == s.keyId && s.keyId !in s.revoked && s.notBefore.value <= payload.issuedAt
    ensures var d := Sign(digest, s.publicKey, payload);
            && (Refuse(digest, d, Published(s), at).None? <==> at < payload.expiresAt)
            && (Refuse(digest, d, Published(Changed(s, change)), at).None?
                <==> at < payload.expiresAt && payload.issuedAt < change.at)
            && (payload.issuedAt >= change.at ==>
                  Refuse(digest, d, Published(Changed(s, change)), at) == Some(KeyAlreadyRotated))
  {
    var d := Sign(digest, s.publicKey, payload);
    KeysStayPublished(s, change, 0);
    assert SignedByPublished(digest, s, d, 0);
    assert SignedByPublished(digest, Changed(s, change), d, Moved(s, change, 0));
    GenuineVerdict(digest, s, d, 0, at);
    GenuineVerdict(digest, Changed(s, change), d, Moved(s, change, 0), at);
  }
}
