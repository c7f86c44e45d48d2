/** What a refused request for an open mandate is told (src/mandates/autonomy.ts): the first thing that is wrong, for
    access and for activation; and what of a mandate its hash binds. */
module MandateRefusals {
  import opened Outcomes
  import Ledger = PolicyLedger
  import opened OpenMandates

  // ---------------------------------------------------------------- what the hash binds

  /** The payload of a mandate names its id, its parties and its limits; of its times it keeps the seconds. */
  lemma PayloadBinds(id: string, terms: CreateInput)
    ensures var p := PayloadOf(id, terms);
            && p.kind == terms.kind && p.jti == id && p.sub == terms.userReference && p.tenantId == terms.tenantId
            && p.agentId == terms.agentId && p.agentKey == terms.agentKey && p.constraints == terms.constraints
            && p.aud == terms.audience && p.nonce == terms.nonce
            && 1000 * p.iat <= terms.issuedAt < 1000 * p.iat + 1000 && 1000 * p.exp <= terms.expiresAt < 1000 * p.exp + 1000
  {
  }

  /** Two mandates have the same payload exactly when they have the same id and the same terms up to the second. */
  lemma SamePayloadIff(a: string, x: CreateInput, b: string, y: CreateInput)
    ensures PayloadOf(a, x) == PayloadOf(b, y) <==>
              a == b && x.issuedAt / 1000 == y.issuedAt / 1000 && x.expiresAt / 1000 == y.expiresAt / 1000
              && x == y.(issuedAt := x.issuedAt, expiresAt := x.expiresAt)
  {
  }

  /** What a mandate must have to be created. */
  lemma ValidCreateIff(input: CreateInput)
    ensures ValidCreate(input) <==>
              && (forall s | s in [input.tenantId, input.userReference, input.agentId, input.audience, input.nonce] :: OpaqueId(s))
              && input.constraints.merchantIds != [] && input.constraints.payeeIds != []
              && Ledger.ValidConstraints(input.constraints) && input.issuedAt < input.expiresAt
  {
  }

  // ---------------------------------------------------------------- access

  /** The record proves who signed what it says, and when: not before it was issued and not after this time. */
  predicate ProofHolds(m: OpenMandate, latest: int) {
    && m.activationProof.Some?
    && var p := m.activationProof.value;
    && p.payloadHash == m.canonicalPayloadHash && m.userSignature == Some(p.signature)
    && m.terms.issuedAt <= p.activatedAt <= latest
  }

  /** Something is wrong with a request for access, under the name it is given. */
  ghost predicate Denies(records: Records, q: AccessRequest, now: int, why: MandateError) {
    if q.id !in records then why == OpenMandateNotFound
    else
      var m := records[q.id];
      match why
      case OpenMandateConfig => !SkewOk(q.clockSkewMs)
      case OpenMandateInactive => m.status != Active
      case OpenMandateNotYetValid => now < m.terms.issuedAt
      case OpenMandateExpired => now >= m.terms.expiresAt
      case OpenMandateUser => q.userReference != m.terms.userReference
      case OpenMandateAgent => q.agentId != m.terms.agentId
      case OpenMandateTenant => q.tenantId != m.terms.tenantId
      case OpenMandateAudience => q.audience != m.terms.audience
      case OpenMandateProof => !ProofHolds(m, now + SkewOf(q.clockSkewMs))
      case OpenMandateHash => PayloadOf(m.id, m.terms) != m.canonicalPayloadHash
      case _ => false
  }

  /** The order in which a request for access is questioned. */
  function Place(why: MandateError): nat {
    match why
    case OpenMandateNotFound => 0
    case OpenMandateConfig => 1
    case OpenMandateInactive => 2
    case OpenMandateNotYetValid => 3
    case OpenMandateExpired => 4
    case OpenMandateUser => 5
    case OpenMandateAgent => 6
    case OpenMandateTenant => 7
    case OpenMandateAudience => 8
    case OpenMandateProof => 9
    case OpenMandateHash => 10
    case _ => 11
  }

  /** Access is refused for the first thing that is wrong, and for nothing else, even to a record that was tampered
      with. */
  lemma DeniedForFirst(records: Records, q: AccessRequest, now: int)
    ensures var r := AuthorizedActive(records, q, now);
            && (r.Ok? <==> forall why :: !Denies(records, q, now, why))
            && (r.Err? ==> Denies(records, q, now, r.error)
                           && forall why | Denies(records, q, now, why) :: Place(r.error) <= Place(why))
  {
    if q.id in records {
      var r := AuthorizedActive(records, q, now);
      if r.Err? {
        assert Denies(records, q, now, r.error);
      }
    } else {
      assert Denies(records, q, now, OpenMandateNotFound);
    }
  }

  // ---------------------------------------------------------------- activation

  ghost predicate Hinders(records: Records, a: Activation, why: MandateError) {
    if a.id !in records then why == OpenMandateNotFound
    else
      var m, at := records[a.id], a.activatedAt.GetOr(a.now);
      match why
      case OpenMandateState => m.status != AwaitingUserSignature
      case OpenMandateConfig => !SkewOk(a.clockSkewMs)
      case OpenMandateNotYetValid => a.now < m.terms.issuedAt
      case OpenMandateExpired => a.now >= m.terms.expiresAt
      case OpenMandateHash => !(a.expectedPayloadHash == m.canonicalPayloadHash == PayloadOf(m.id, m.terms))
      case UserSignatureInvalid => !a.signatureValid
      case OpenMandateProof => at < m.terms.issuedAt || a.now + SkewOf(a.clockSkewMs) < at
      case _ => false
  }

  function Turn(why: MandateError): nat {
    match why
    case OpenMandateNotFound => 0
    case OpenMandateState => 1
    case OpenMandateConfig => 2
    case OpenMandateNotYetValid => 3
    case OpenMandateExpired => 4
    case OpenMandateHash => 5
    case UserSignatureInvalid => 6
    case OpenMandateProof => 7
    case _ => 8
  }

  /** And so is the activation of one. Otherwise the proof holds the signature, what was signed, when, and by whom. */
  lemma HinderedForFirst(records: Records, a: Activation)
    ensures var r := ActivationProofFor(records, a);
            && (r.Ok? <==> forall why :: !Hinders(records, a, why))
            && (r.Err? ==> Hinders(records, a, r.error)
                           && forall why | Hinders(records, a, why) :: Turn(r.error) <= Turn(why))
            && (r.Ok? ==> r.value == Proof(a.signature, PayloadOf(records[a.id].id, records[a.id].terms), a.activatedAt.GetOr(a.now),
                                           a.challengeId, a.ownerAddress))
  {
    if a.id in records {
      var r := ActivationProofFor(records, a);
      if r.Err? {
        assert Hinders(records, a, r.error);
      }
    } else {
      assert Hinders(records, a, OpenMandateNotFound);
    }
  }
}
