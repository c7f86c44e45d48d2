/** Open mandates and their registry (src/mandates/autonomy.ts). A hash is represented by the value that
    is hashed, so that equal hashes mean equal payloads and nothing else is known about them. */
module OpenMandates {
  import opened Outcomes
  import opened PolicyLedger

  datatype Kind = CheckoutKind | PaymentKind

  datatype Status = OpenDraft | AwaitingUserSignature | OpenSigned | Active | Revoked | Expired | Rejected

  /** The payload that is hashed: times are floored to seconds. */
  datatype OpenPayload = OpenPayload(
    kind: Kind, jti: string, sub: string, tenantId: string, agentId: string, agentKey: string,
    constraints: Constraints, iat: int, exp: int, aud: string, nonce: string)

  datatype Proof = Proof(
    signature: string,
    payloadHash: OpenPayload,
    activatedAt: int,
    challengeId: Option<string>,
    ownerAddress: Option<string>)

  datatype CreateInput = CreateInput(
    kind: Kind, tenantId: string, userReference: string, agentId: string, agentKey: string,
    constraints: Constraints, issuedAt: int, expiresAt: int, audience: string, nonce: string)

  datatype OpenMandate = OpenMandate(
    id: string,
    terms: CreateInput,
    canonicalPayloadHash: OpenPayload,
    status: Status,
    userSignature: Option<string>,
    activationProof: Option<Proof>)

  datatype MandateError =
    | OpenMandateInput | OpenMandateNotFound | OpenMandateInactive | OpenMandateNotYetValid
    | OpenMandateExpired | OpenMandateUser | OpenMandateAgent | OpenMandateTenant | OpenMandateAudience
    | OpenMandateProof | OpenMandateHash | OpenMandateState | OpenMandateConfig | UserSignatureInvalid | OpenMandateType

  /** resolveClockSkewMs: five seconds unless the caller says otherwise. */
  function SkewOf(clockSkewMs: Option<int>): int {
    clockSkewMs.GetOr(5_000)
  }

  predicate SkewOk(clockSkewMs: Option<int>) {
    0 <= SkewOf(clockSkewMs) <= 9_007_199_254_740_991
  }

  predicate OpaqueChar(c: char) {
    'A' <= c <= 'Z' || 'a' <= c <= 'z' || '0' <= c <= '9' || c == '.' || c == '_' || c == ':' || c == '-'
  }

  predicate OpaqueId(s: string) {
    1 <= |s| <= 200 && forall i | 0 <= i < |s| :: OpaqueChar(s[i])
  }

  predicate ValidCreate(input: CreateInput) {
    && OpaqueId(input.tenantId) && OpaqueId(input.userReference) && OpaqueId(input.agentId)
    && OpaqueId(input.audience) && OpaqueId(input.nonce)
    && |input.constraints.merchantIds| >= 1 && |input.constraints.payeeIds| >= 1
    && ValidConstraints(input.constraints)
    && input.expiresAt > input.issuedAt
  }

  function PayloadOf(id: string, terms: CreateInput): OpenPayload {
    OpenPayload(terms.kind, id, terms.userReference, terms.tenantId, terms.agentId, terms.agentKey,
                terms.constraints, terms.issuedAt / 1000, terms.expiresAt / 1000, terms.audience, terms.nonce)
  }

  function NewMandate(id: string, terms: CreateInput): OpenMandate {
    OpenMandate(id, terms, PayloadOf(id, terms), AwaitingUserSignature, None, None)
  }

  type Records = map<string, OpenMandate>

  datatype AccessRequest = AccessRequest(
    id: string, userReference: string, agentId: string, tenantId: string, audience: string, clockSkewMs: Option<int>)

  /** getAuthorizedActive: the checks of one record in the order in which they fail. */
  function AuthorizedActive(records: Records, q: AccessRequest, now: int): Result<OpenMandate, MandateError> {
    if q.id !in records then Err(OpenMandateNotFound)
    else
      var m := records[q.id];
      if !SkewOk(q.clockSkewMs) then Err(OpenMandateConfig)
      else if m.status != Active then Err(OpenMandateInactive)
      else if now < m.terms.issuedAt then Err(OpenMandateNotYetValid)
      else if m.terms.expiresAt <= now then Err(OpenMandateExpired)
      else if m.terms.userReference != q.userReference then Err(OpenMandateUser)
      else if m.terms.agentId != q.agentId then Err(OpenMandateAgent)
      else if m.terms.tenantId != q.tenantId then Err(OpenMandateTenant)
      else if m.terms.audience != q.audience then Err(OpenMandateAudience)
      else if m.activationProof.None? || m.activationProof.value.payloadHash != m.canonicalPayloadHash then
        Err(OpenMandateProof)
      else if m.userSignature != Some(m.activationProof.value.signature) then Err(OpenMandateProof)
      else if m.activationProof.value.activatedAt > now + SkewOf(q.clockSkewMs) then Err(OpenMandateProof)
      else if m.activationProof.value.activatedAt < m.terms.issuedAt then Err(OpenMandateProof)
      else if PayloadOf(m.id, m.terms) != m.canonicalPayloadHash then Err(OpenMandateHash)
      else Ok(m)
  }

  /** The signature and the proof an activation brings, and whether the signature verifies. */
  datatype Activation = Activation(
    id: string, signature: string, signatureValid: bool, expectedPayloadHash: OpenPayload,
    activatedAt: Option<int>, challengeId: Option<string>, ownerAddress: Option<string>, now: int,
    clockSkewMs: Option<int>)

  /** The part of activateWithVerifiedSignature that runs before the proof is persisted. */
  function ActivationProofFor(records: Records, a: Activation): Result<Proof, MandateError> {
    if a.id !in records then Err(OpenMandateNotFound)
    else
      var m := records[a.id];
      var activatedAt := a.activatedAt.GetOr(a.now);
      if m.status != AwaitingUserSignature then Err(OpenMandateState)
      else if !SkewOk(a.clockSkewMs) then Err(OpenMandateConfig)
      else if a.now < m.terms.issuedAt then Err(OpenMandateNotYetValid)
      else if m.terms.expiresAt <= a.now then Err(OpenMandateExpired)
      else if PayloadOf(m.id, m.terms) != m.canonicalPayloadHash then Err(OpenMandateHash)
      else if a.expectedPayloadHash != m.canonicalPayloadHash then Err(OpenMandateHash)
      else if !a.signatureValid then Err(UserSignatureInvalid)
      else if activatedAt < m.terms.issuedAt || activatedAt > a.now + SkewOf(a.clockSkewMs) then Err(OpenMandateProof)
      else Ok(Proof(a.signature, m.canonicalPayloadHash, activatedAt, a.challengeId, a.ownerAddress))
  }

  function Activated(m: OpenMandate, proof: Proof): OpenMandate {
    m.(status := Active, userSignature := Some(proof.signature), activationProof := Some(proof))
  }

  function RevokedIn(records: Records, id: string): Records {
    if id in records then records[id := records[id].(status := Revoked)] else records
  }

  /** A record as the registry leaves it: filed under its id, hashed as created, and proven when active. */
  predicate RecordInv(m: OpenMandate, id: string) {
    && m.id == id
    && m.canonicalPayloadHash == PayloadOf(id, m.terms)
    && ValidCreate(m.terms)
    && (m.status == AwaitingUserSignature ==> m.activationProof.None?)
    && (m.status == Active ==>
          && m.activationProof.Some?
          && m.activationProof.value.payloadHash == m.canonicalPayloadHash
          && m.userSignature == Some(m.activationProof.value.signature)
          && m.terms.issuedAt <= m.activationProof.value.activatedAt)
  }

  ghost predicate RecordsInv(records: Records) {
    forall id | id in records :: RecordInv(records[id], id)
  }

  /** For a record the registry produced, only the state, the clock and the caller's identity can refuse
      access: the stored proof and the stored hash never do, once the activation clock is not ahead of now. */
  lemma AccessDecidedByStateAndCaller(records: Records, q: AccessRequest, now: int)
    requires RecordsInv(records)
    ensures AuthorizedActive(records, q, now).Ok? <==>
              && q.id in records && SkewOk(q.clockSkewMs)
              && var m := records[q.id];
              && m.status == Active
              && m.terms.issuedAt <= now < m.terms.expiresAt
              && m.terms.userReference == q.userReference
              && m.terms.agentId == q.agentId
              && m.terms.tenantId == q.tenantId
              && m.terms.audience == q.audience
              && m.activationProof.value.activatedAt <= now + SkewOf(q.clockSkewMs)
    ensures AuthorizedActive(records, q, now).Ok? ==>
              AuthorizedActive(records, q, now).value == records[q.id]
  {
    assert q.id in records ==> RecordInv(records[q.id], q.id);
  }

  /** For a record the registry produced, an activation is prepared exactly when the mandate waits for its user,
      the clock is inside its window, and the user signed its own terms at a time inside the window that is not
      ahead of the clock by more than the skew. */
  lemma PreparedIff(records: Records, a: Activation)
    requires RecordsInv(records)
    ensures ActivationProofFor(records, a).Ok? <==>
              && a.id in records && SkewOk(a.clockSkewMs)
              && var m, at := records[a.id], a.activatedAt.GetOr(a.now);
              && m.status == AwaitingUserSignature
              && m.terms.issuedAt <= a.now < m.terms.expiresAt
              && a.expectedPayloadHash == PayloadOf(a.id, m.terms) && a.signatureValid
              && m.terms.issuedAt <= at <= a.now + SkewOf(a.clockSkewMs)
  {
    assert a.id in records ==> RecordInv(records[a.id], a.id);
  }

  /** A prepared activation that is committed opens the mandate to the caller it names, from the time of the
      signature, less the skew, to the end of its window. */
  lemma ActivationOpensAccess(records: Records, a: Activation, q: AccessRequest, now: int)
    requires RecordsInv(records) && ActivationProofFor(records, a).Ok? && q.id == a.id && SkewOk(q.clockSkewMs)
    requires var t := records[a.id].terms;
             t.userReference == q.userReference && t.agentId == q.agentId && t.tenantId == q.tenantId && t.audience == q.audience
    ensures var m := Activated(records[a.id], ActivationProofFor(records, a).value);
            AuthorizedActive(records[a.id := m], q, now) == Ok(m) <==>
              m.terms.issuedAt <= now < m.terms.expiresAt && a.activatedAt.GetOr(a.now) <= now + SkewOf(q.clockSkewMs)
  {
    assert RecordInv(records[a.id], a.id);
  }

  /** `next` keeps every mandate of `records`, with the terms it was created with. */
  ghost predicate TermsFrozen(records: Records, next: Records) {
    forall id | id in records :: id in next && next[id].terms == records[id].terms
  }

  class InMemoryOpenMandateRegistry {
    var records: Records

    constructor ()
      ensures records == map[]
    {
      records := map[];
    }

    /** `id` stands for the random id; it is fresh. */
    method Create(input: CreateInput, id: string) returns (r: Result<OpenMandate, MandateError>)
      requires id !in records
      modifies this
      ensures !ValidCreate(input) ==> r == Err(OpenMandateInput) && records == old(records)
      ensures ValidCreate(input) ==>
                r == Ok(NewMandate(id, input)) && records == old(records)[id := NewMandate(id, input)]
      ensures old(RecordsInv(records)) ==> RecordsInv(records) && TermsFrozen(old(records), records)
    {
      if !ValidCreate(input) {
        return Err(OpenMandateInput);
      }
      var draft := NewMandate(id, input);
      records := records[id := draft];
      return Ok(draft);
    }

    method GetAuthorizedActive(q: AccessRequest, now: int) returns (r: Result<OpenMandate, MandateError>)
      ensures r == AuthorizedActive(records, q, now)
    {
      r := AuthorizedActive(records, q, now);
    }

    /** First half of the activation critical section. */
    method PrepareActivation(a: Activation) returns (r: Result<Proof, MandateError>)
      ensures r == ActivationProofFor(records, a)
    {
      r := ActivationProofFor(records, a);
    }

    /** Last step of the activation critical section; the registry lock has been held since it was prepared. */
    method CommitActivation(a: Activation, proof: Proof)
      requires ActivationProofFor(records, a) == Ok(proof)
      modifies this
      ensures records == old(records)[a.id := Activated(old(records)[a.id], proof)]
      ensures old(RecordsInv(records)) ==> RecordsInv(records) && TermsFrozen(old(records), records)
    {
      assert old(RecordsInv(records)) ==> RecordInv(records[a.id], a.id);
      records := records[a.id := Activated(records[a.id], proof)];
    }

    method Revoke(id: string) returns (r: Result<OpenMandate, MandateError>)
      modifies this
      ensures records == RevokedIn(old(records), id)
      ensures id !in old(records) <==> r == Err(OpenMandateNotFound)
      ensures id in old(records) ==> r == Ok(records[id])
      ensures old(RecordsInv(records)) ==> RecordsInv(records) && TermsFrozen(old(records), records)
    {
      if id !in records {
        return Err(OpenMandateNotFound);
      }
      assert old(RecordsInv(records)) ==> RecordInv(records[id], id);
      records := records[id := records[id].(status := Revoked)];
      return Ok(records[id]);
    }
  }
}
