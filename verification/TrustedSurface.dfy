/** Trusted Surface approval (src/mandates/trusted-surface.ts): a challenge for an open mandate is signed by the
    user's wallet, and consuming it and activating the mandate (src/mandates/autonomy.ts) happen in one critical
    section of the registry. A hash is represented by what is hashed. */
module TrustedSurface {
  import opened Outcomes
  import opened OpenMandates

  /** The signed message; its times are in seconds. */
  datatype Message = Message(
    mandateHash: OpenPayload, userReferenceHash: string, agentIdHash: string, nonceHash: string, issuedAt: int, expiresAt: int)

  datatype Challenge = Challenge(
    id: string, mandateId: string, owner: string, nonce: string, issuedAt: int, expiresAt: int,
    expectedPayloadHash: OpenPayload, message: Message, consumedAt: Option<int>)

  datatype ApprovalProof = ApprovalProof(
    challengeId: string, mandateId: string, owner: string, signature: string, signedAt: int, payloadHash: OpenPayload)

  datatype ApprovalError =
    | ChallengeExists | ChallengeNotFound | Replay | ApprovalExpired | Subject | HashMismatch
    | MandateState | MandateNotYetValid | NoWindow | NotAllowed | Integrity | Signature

  type Challenges = map<string, Challenge>
  type Proofs = map<string, ApprovalProof>

  // ---------------------------------------------------------------- the approval store

  function ConsumeFault(challenges: Challenges, proofs: Proofs, p: ApprovalProof, now: int): Option<ApprovalError> {
    if p.challengeId !in challenges then Some(ChallengeNotFound)
    else
      var c := challenges[p.challengeId];
      if c.consumedAt.Some? || p.challengeId in proofs then Some(Replay)
      else if c.expiresAt <= now then Some(ApprovalExpired)
      else if c.mandateId != p.mandateId || c.owner != p.owner then Some(Subject)
      else if c.expectedPayloadHash != p.payloadHash then Some(HashMismatch)
      else None
  }

  class InMemoryTrustedSurfaceApprovalStore {
    var challenges: Challenges
    var proofs: Proofs

    constructor ()
      ensures challenges == map[] && proofs == map[]
    {
      challenges, proofs := map[], map[];
    }

    method Create(c: Challenge) returns (fault: Option<ApprovalError>)
      modifies this`challenges
      ensures fault == if c.id in old(challenges) then Some(ChallengeExists) else None
      ensures challenges == if c.id in old(challenges) then old(challenges) else old(challenges)[c.id := c]
    {
      if c.id in challenges {
        return Some(ChallengeExists);
      }
      challenges := challenges[c.id := c];
      return None;
    }

    method Consume(p: ApprovalProof, now: int) returns (fault: Option<ApprovalError>)
      modifies this
      ensures fault == ConsumeFault(old(challenges), old(proofs), p, now)
      ensures fault.Some? ==> challenges == old(challenges) && proofs == old(proofs)
      ensures fault.None? ==>
                && challenges == old(challenges)[p.challengeId := old(challenges)[p.challengeId].(consumedAt := Some(now))]
                && proofs == old(proofs)[p.challengeId := p]
    {
      fault := ConsumeFault(challenges, proofs, p, now);
      if fault.None? {
        challenges := challenges[p.challengeId := challenges[p.challengeId].(consumedAt := Some(now))];
        proofs := proofs[p.challengeId := p];
      }
    }
  }

  // ---------------------------------------------------------------- making and checking a challenge

  function CeilSeconds(ms: int): int {
    (ms + 999) / 1000
  }

  function MessageOf(m: OpenMandate, nonce: string, issuedAt: int, expiresAt: int): Message {
    Message(PayloadOf(m.id, m.terms), m.terms.userReference, m.terms.agentId, nonce, issuedAt, expiresAt)
  }

  /** `allowed` says whether the KYA records let this wallet approve; `id` and `nonce` are random. */
  datatype ChallengeInput = ChallengeInput(
    mandateId: string, owner: string, now: int, ttlSeconds: int, allowed: bool, id: string, nonce: string)

  function NewChallenge(records: Records, input: ChallengeInput): Result<Challenge, ApprovalError> {
    if input.mandateId !in records then Err(MandateState)
    else
      var m := records[input.mandateId];
      var issued := Max(input.now / 1000, CeilSeconds(m.terms.issuedAt));
      var expires := Min(m.terms.expiresAt, input.now + input.ttlSeconds * 1000) / 1000;
      if m.status != AwaitingUserSignature then Err(MandateState)
      else if m.terms.expiresAt <= input.now then Err(ApprovalExpired)
      else if input.now < m.terms.issuedAt then Err(MandateNotYetValid)
      else if PayloadOf(m.id, m.terms) != m.canonicalPayloadHash then Err(HashMismatch)
      else if !input.allowed then Err(NotAllowed)
      else if input.ttlSeconds <= 0 || expires <= issued then Err(NoWindow)
      else Ok(Challenge(input.id, m.id, input.owner, input.nonce, issued * 1000, expires * 1000, m.canonicalPayloadHash,
                        MessageOf(m, input.nonce, issued, expires), None))
  }

  /** The clock skew a service was set up with, a safe integer. */
  type Skew = n: int | 0 <= n <= 9_007_199_254_740_991

  datatype Approval = Approval(challengeId: string, owner: string, signature: string, now: int, clockSkewMs: Skew)

  predicate TimesIntact(c: Challenge, now: int, clockSkewMs: Skew) {
    && c.issuedAt < c.expiresAt && c.issuedAt <= now + clockSkewMs
    && c.message.issuedAt * 1000 == c.issuedAt && c.message.expiresAt * 1000 == c.expiresAt
  }

  /** The challenge lies inside the mandate's window and names its terms. */
  predicate MandateIntact(c: Challenge, records: Records) {
    && c.mandateId != "" && c.mandateId in records && c.nonce != ""
    && var m := records[c.mandateId];
    && m.id == c.mandateId
    && m.terms.issuedAt <= c.issuedAt && c.expiresAt <= m.terms.expiresAt
    && PayloadOf(m.id, m.terms) == m.canonicalPayloadHash && c.expectedPayloadHash == m.canonicalPayloadHash
    && c.message == MessageOf(m, c.nonce, c.issuedAt / 1000, c.expiresAt / 1000)
  }

  /** verifyAndRecordApproval up to the activation; `allowed` and `valid` are what the KYA records and the
      signature verifier say. */
  function ApprovalFault(
    c: Challenge, records: Records, a: Approval, allowed: bool, valid: bool): Option<ApprovalError>
  {
    if c.id != a.challengeId then Some(Integrity)
    else if c.consumedAt.Some? then Some(Replay)
    else if c.owner != a.owner then Some(Subject)
    else if !TimesIntact(c, a.now, a.clockSkewMs) then Some(Integrity)
    else if c.expiresAt <= a.now then Some(ApprovalExpired)
    else if !MandateIntact(c, records) then Some(Integrity)
    else if !allowed then Some(NotAllowed)
    else if !valid then Some(Signature)
    else None
  }

  function ActivationOf(c: Challenge, a: Approval): Activation {
    Activation(c.mandateId, a.signature, true, c.expectedPayloadHash, Some(a.now), Some(c.id), Some(a.owner), a.now,
               Some(a.clockSkewMs))
  }

  function ProofOf(c: Challenge, a: Approval): ApprovalProof {
    ApprovalProof(c.id, c.mandateId, a.owner, a.signature, a.now, c.expectedPayloadHash)
  }

  /** A challenge made for a mandate of the registry passes the integrity checks at any later time: it lies inside
      the mandate's window and names the mandate's frozen terms. One check can fail at first: the start of the
      window is rounded up to a second, and a skew below a second may not reach it yet. */
  lemma NewChallengeIsIntact(records: Records, input: ChallengeInput, now: int, clockSkewMs: Skew)
    requires RecordsInv(records) && NewChallenge(records, input).Ok? && input.nonce != "" && input.mandateId != ""
    requires input.now <= now
    ensures MandateIntact(NewChallenge(records, input).value, records)
    ensures TimesIntact(NewChallenge(records, input).value, now, clockSkewMs)
            <==> CeilSeconds(records[input.mandateId].terms.issuedAt) * 1000 <= now + clockSkewMs
    ensures clockSkewMs >= 999 ==> TimesIntact(NewChallenge(records, input).value, now, clockSkewMs)
  {
    assert RecordInv(records[input.mandateId], input.mandateId);
  }

  // ---------------------------------------------------------------- interleaved calls

  /** A call has read a challenge, or has passed all checks and waits for the registry lock. */
  datatype Call = Read(challenge: Challenge, approval: Approval) | Waiting(challenge: Challenge, approval: Approval)

  /** Who is in the critical section, and whether the proof has been persisted. */
  datatype Holder = Holder(challenge: Challenge, approval: Approval, proof: Proof, persisted: bool)

  datatype State = State(
    records: Records, challenges: Challenges, proofs: Proofs, creating: map<nat, Challenge>, calls: map<nat, Call>,
    lock: Option<Holder>)

  datatype Step =
    | CreateMandate(terms: CreateInput, id: string)
    | AskChallenge(call: nat, input: ChallengeInput)
    | StoreChallenge(call: nat)
    | ReadChallenge(call: nat, approval: Approval)
    | CheckApproval(call: nat, allowed: bool, valid: bool)
    | Enter(call: nat)
    | Persist(fails: bool)
    | Commit
    | Revoke(id: string)

  function DoCreateMandate(st: State, terms: CreateInput, id: string): State {
    if id in st.records || id == "" || !ValidCreate(terms) then st
    else st.(records := st.records[id := NewMandate(id, terms)])
  }

  function DoAsk(st: State, n: nat, input: ChallengeInput): State {
    var r := NewChallenge(st.records, input);
    if n in st.creating || r.Err? then st else st.(creating := st.creating[n := r.value])
  }

  function DoStore(st: State, n: nat): State {
    if n !in st.creating then st
    else if st.creating[n].id in st.challenges then st.(creating := st.creating - {n})
    else st.(challenges := st.challenges[st.creating[n].id := st.creating[n]], creating := st.creating - {n})
  }

  function DoRead(st: State, n: nat, a: Approval): State {
    if n in st.calls || a.challengeId !in st.challenges then st
    else st.(calls := st.calls[n := Read(st.challenges[a.challengeId], a)])
  }

  function DoCheck(st: State, n: nat, allowed: bool, valid: bool): State {
    if n !in st.calls || !st.calls[n].Read? then st
    else
      var c, a := st.calls[n].challenge, st.calls[n].approval;
      st.(calls := if ApprovalFault(c, st.records, a, allowed, valid).None? then st.calls[n := Waiting(c, a)]
                   else st.calls - {n})
  }

  function DoEnter(st: State, n: nat): State {
    if st.lock.Some? || n !in st.calls || !st.calls[n].Waiting? then st
    else
      var c, a := st.calls[n].challenge, st.calls[n].approval;
      var r := ActivationProofFor(st.records, ActivationOf(c, a));
      st.(calls := st.calls - {n}, lock := if r.Ok? then Some(Holder(c, a, r.value, false)) else None)
  }

  function Consumed(c: Challenge, now: int): Challenge {
    c.(consumedAt := Some(now))
  }

  function DoPersist(st: State, fails: bool): State {
    if st.lock.None? || st.lock.value.persisted then st
    else
      var h := st.lock.value;
      var p := ProofOf(h.challenge, h.approval);
      if fails || ConsumeFault(st.challenges, st.proofs, p, h.approval.now).Some? then st.(lock := None)
      else
        st.(challenges := st.challenges[p.challengeId := Consumed(st.challenges[p.challengeId], h.approval.now)],
            proofs := st.proofs[p.challengeId := p],
            lock := Some(h.(persisted := true)))
  }

  function DoCommit(st: State): State {
    if st.lock.None? || !st.lock.value.persisted || st.lock.value.challenge.mandateId !in st.records then st
    else
      var h := st.lock.value;
      st.(records := st.records[h.challenge.mandateId := Activated(st.records[h.challenge.mandateId], h.proof)], lock := None)
  }

  function DoRevoke(st: State, id: string): State {
    if st.lock.Some? then st else st.(records := RevokedIn(st.records, id))
  }

  function Next(st: State, step: Step): State {
    match step
    case CreateMandate(terms, id) => DoCreateMandate(st, terms, id)
    case AskChallenge(n, input) => DoAsk(st, n, input)
    case StoreChallenge(n) => DoStore(st, n)
    case ReadChallenge(n, a) => DoRead(st, n, a)
    case CheckApproval(n, allowed, valid) => DoCheck(st, n, allowed, valid)
    case Enter(n) => DoEnter(st, n)
    case Persist(fails) => DoPersist(st, fails)
    case Commit => DoCommit(st)
    case Revoke(id) => DoRevoke(st, id)
  }

  const INITIAL := State(map[], map[], map[], map[], map[], None)

  function Run(steps: seq<Step>): State {
    if steps == [] then INITIAL else Next(Run(steps[..|steps| - 1]), steps[|steps| - 1])
  }

  // ---------------------------------------------------------------- what every run keeps

  /** The mandate carries the activation proof that names the challenge. */
  predicate Names(m: OpenMandate, challengeId: string) {
    m.activationProof.Some? && m.activationProof.value.challengeId == Some(challengeId)
  }

  predicate ForMandate(records: Records, c: Challenge) {
    c.mandateId in records && c.expectedPayloadHash == records[c.mandateId].canonicalPayloadHash
  }

  ghost predicate CreatingOk(records: Records, creating: map<nat, Challenge>) {
    forall n | n in creating :: ForMandate(records, creating[n]) && creating[n].consumedAt.None?
  }

  /** The challenge a call holds is the stored one, up to its consumption. */
  predicate IsStored(challenges: Challenges, c: Challenge) {
    c.id in challenges && challenges[c.id].(consumedAt := None) == c.(consumedAt := None)
  }

  predicate CallOk(challenges: Challenges, call: Call) {
    && call.challenge.id == call.approval.challengeId && IsStored(challenges, call.challenge)
    && (call.Waiting? ==> call.challenge.owner == call.approval.owner && call.approval.now < call.challenge.expiresAt)
  }

  ghost predicate CallsOk(challenges: Challenges, calls: map<nat, Call>) {
    forall n | n in calls :: CallOk(challenges, calls[n])
  }

  predicate HolderOk(records: Records, challenges: Challenges, h: Holder) {
    && IsStored(challenges, h.challenge)
    && h.challenge.owner == h.approval.owner && h.approval.now < h.challenge.expiresAt
    && h.challenge.mandateId in records && records[h.challenge.mandateId].status == AwaitingUserSignature
    && h.proof.challengeId == Some(h.challenge.id)
    && h.proof.payloadHash == records[h.challenge.mandateId].canonicalPayloadHash
    && records[h.challenge.mandateId].terms.issuedAt <= h.proof.activatedAt
  }

  ghost predicate LockOk(records: Records, challenges: Challenges, lock: Option<Holder>) {
    lock.Some? ==> HolderOk(records, challenges, lock.value)
  }

  /** Whether the holder of the lock is about to commit this challenge. */
  predicate Committing(lock: Option<Holder>, id: string) {
    lock.Some? && lock.value.persisted && lock.value.challenge.id == id
  }

  predicate ChallengeOk(records: Records, lock: Option<Holder>, proofs: Proofs, c: Challenge, id: string) {
    && c.id == id && ForMandate(records, c)
    && (c.consumedAt.Some? <==> id in proofs)
    && (c.consumedAt.Some? <==> Names(records[c.mandateId], id) || Committing(lock, id))
  }

  ghost predicate ChallengesOk(records: Records, challenges: Challenges, proofs: Proofs, lock: Option<Holder>) {
    && (forall id | id in challenges :: ChallengeOk(records, lock, proofs, challenges[id], id))
    && proofs.Keys <= challenges.Keys
  }

  /** An activation proof names a stored challenge of its own mandate. */
  predicate NamedIsStored(m: OpenMandate, challenges: Challenges, id: string) {
    m.activationProof.Some? ==>
      && m.activationProof.value.challengeId.Some?
      && m.activationProof.value.challengeId.value in challenges
      && challenges[m.activationProof.value.challengeId.value].mandateId == id
  }

  ghost predicate NamesOk(records: Records, challenges: Challenges) {
    forall id | id in records :: NamedIsStored(records[id], challenges, id)
  }

  ghost predicate Inv(st: State) {
    && RecordsInv(st.records)
    && CreatingOk(st.records, st.creating)
    && CallsOk(st.challenges, st.calls)
    && LockOk(st.records, st.challenges, st.lock)
    && ChallengesOk(st.records, st.challenges, st.proofs, st.lock)
    && NamesOk(st.records, st.challenges)
  }

  /** `b` has the mandates of `a` with their hashes and proofs, and maybe more of them. */
  ghost predicate SameProofs(a: Records, b: Records) {
    && (forall id | id in a :: id in b && b[id].canonicalPayloadHash == a[id].canonicalPayloadHash
                               && b[id].terms == a[id].terms && b[id].activationProof == a[id].activationProof)
    && (forall id | id in b && id !in a :: b[id].activationProof.None?)
  }

  lemma SameProofsKeepCreating(a: Records, b: Records, creating: map<nat, Challenge>)
    requires SameProofs(a, b) && CreatingOk(a, creating)
    ensures CreatingOk(b, creating)
  {
    assert forall n | n in creating :: ForMandate(a, creating[n]) ==> ForMandate(b, creating[n]);
  }

  lemma SameProofsKeepChallenges(a: Records, b: Records, challenges: Challenges, proofs: Proofs, lock: Option<Holder>)
    requires SameProofs(a, b) && ChallengesOk(a, challenges, proofs, lock)
    ensures ChallengesOk(b, challenges, proofs, lock)
  {
    forall id | id in challenges
      ensures ChallengeOk(b, lock, proofs, challenges[id], id)
    {
      assert ChallengeOk(a, lock, proofs, challenges[id], id);
    }
  }

  lemma SameProofsKeepNames(a: Records, b: Records, challenges: Challenges)
    requires SameProofs(a, b) && NamesOk(a, challenges)
    ensures NamesOk(b, challenges)
  {
    forall id | id in b
      ensures NamedIsStored(b[id], challenges, id)
    {
      assert id in a ==> NamedIsStored(a[id], challenges, id);
    }
  }

  lemma SameProofsKeepInv(st: State, records: Records)
    requires Inv(st) && RecordsInv(records) && SameProofs(st.records, records)
    requires LockOk(records, st.challenges, st.lock)
    ensures Inv(st.(records := records))
  {
    SameProofsKeepCreating(st.records, records, st.creating);
    SameProofsKeepChallenges(st.records, records, st.challenges, st.proofs, st.lock);
    SameProofsKeepNames(st.records, records, st.challenges);
  }

  lemma CreatedRecords(records: Records, terms: CreateInput, id: string)
    requires RecordsInv(records) && id !in records && ValidCreate(terms)
    ensures RecordsInv(records[id := NewMandate(id, terms)]) && SameProofs(records, records[id := NewMandate(id, terms)])
  {
  }

  lemma CreateMandateKeepsInv(st: State, terms: CreateInput, id: string)
    requires Inv(st)
    ensures Inv(DoCreateMandate(st, terms, id))
  {
    if id !in st.records && ValidCreate(terms) {
      CreatedRecords(st.records, terms, id);
      SameProofsKeepInv(st, st.records[id := NewMandate(id, terms)]);
    }
  }

  lemma RevokedRecords(records: Records, id: string)
    requires RecordsInv(records)
    ensures RecordsInv(RevokedIn(records, id)) && SameProofs(records, RevokedIn(records, id))
  {
    assert id in records ==> RecordInv(records[id], id);
  }

  lemma RevokeKeepsInv(st: State, id: string)
    requires Inv(st)
    ensures Inv(DoRevoke(st, id))
  {
    if st.lock.None? {
      RevokedRecords(st.records, id);
      SameProofsKeepInv(st, RevokedIn(st.records, id));
    }
  }

  lemma AskKeepsInv(st: State, n: nat, input: ChallengeInput)
    requires Inv(st)
    ensures Inv(DoAsk(st, n, input))
  {
    assert input.mandateId in st.records ==> RecordInv(st.records[input.mandateId], input.mandateId);
  }

  /** `b` has the challenges of `a`, some of them consumed, and maybe more. */
  ghost predicate MoreChallenges(a: Challenges, b: Challenges) {
    forall id | id in a :: id in b && b[id].(consumedAt := None) == a[id].(consumedAt := None)
  }

  lemma CallsKept(a: Challenges, b: Challenges, calls: map<nat, Call>)
    requires MoreChallenges(a, b) && CallsOk(a, calls)
    ensures CallsOk(b, calls)
  {
    forall n | n in calls
      ensures CallOk(b, calls[n])
    {
      assert CallOk(a, calls[n]);
    }
  }

  lemma NamesKept(records: Records, a: Challenges, b: Challenges)
    requires MoreChallenges(a, b) && NamesOk(records, a)
    ensures NamesOk(records, b)
  {
    forall id | id in records
      ensures NamedIsStored(records[id], b, id)
    {
      assert NamedIsStored(records[id], a, id);
      if records[id].activationProof.Some? {
        var c := records[id].activationProof.value.challengeId.value;
        assert b[c].(consumedAt := None).mandateId == a[c].(consumedAt := None).mandateId;
      }
    }
  }

  lemma LockKept(records: Records, a: Challenges, b: Challenges, lock: Option<Holder>)
    requires MoreChallenges(a, b) && LockOk(records, a, lock)
    ensures LockOk(records, b, lock)
  {
  }

  lemma NewChallengeOk(
    records: Records, challenges: Challenges, proofs: Proofs, lock: Option<Holder>, c: Challenge)
    requires ChallengesOk(records, challenges, proofs, lock) && NamesOk(records, challenges)
    requires LockOk(records, challenges, lock)
    requires ForMandate(records, c) && c.consumedAt.None? && c.id !in challenges
    ensures ChallengesOk(records, challenges[c.id := c], proofs, lock)
  {
    assert NamedIsStored(records[c.mandateId], challenges, c.mandateId);
    var next := challenges[c.id := c];
    forall id | id in next
      ensures ChallengeOk(records, lock, proofs, next[id], id)
    {
      assert id in challenges ==> ChallengeOk(records, lock, proofs, challenges[id], id);
    }
  }

  lemma StoreKeepsInv(st: State, n: nat)
    requires Inv(st)
    ensures Inv(DoStore(st, n))
  {
    if n in st.creating && st.creating[n].id !in st.challenges {
      var next := st.challenges[st.creating[n].id := st.creating[n]];
      CallsKept(st.challenges, next, st.calls);
      NamesKept(st.records, st.challenges, next);
      LockKept(st.records, st.challenges, next, st.lock);
      NewChallengeOk(st.records, st.challenges, st.proofs, st.lock, st.creating[n]);
    }
  }

  lemma ReadCallOk(challenges: Challenges, calls: map<nat, Call>, n: nat, a: Approval)
    requires CallsOk(challenges, calls) && a.challengeId in challenges && challenges[a.challengeId].id == a.challengeId
    ensures CallsOk(challenges, calls[n := Read(challenges[a.challengeId], a)])
  {
    assert CallOk(challenges, Read(challenges[a.challengeId], a));
  }

  lemma ReadKeepsInv(st: State, n: nat, a: Approval)
    requires Inv(st)
    ensures Inv(DoRead(st, n, a))
  {
    if n !in st.calls && a.challengeId in st.challenges {
      assert ChallengeOk(st.records, st.lock, st.proofs, st.challenges[a.challengeId], a.challengeId);
      ReadCallOk(st.challenges, st.calls, n, a);
    }
  }

  lemma CheckedCallOk(challenges: Challenges, records: Records, c: Challenge, a: Approval, allowed: bool, valid: bool)
    requires CallOk(challenges, Read(c, a)) && ApprovalFault(c, records, a, allowed, valid).None?
    ensures CallOk(challenges, Waiting(c, a))
  {
  }

  lemma CheckKeepsInv(st: State, n: nat, allowed: bool, valid: bool)
    requires Inv(st)
    ensures Inv(DoCheck(st, n, allowed, valid))
  {
    if n in st.calls && st.calls[n].Read? {
      assert CallOk(st.challenges, st.calls[n]);
      var c, a := st.calls[n].challenge, st.calls[n].approval;
      assert st.calls[n] == Read(c, a);
      if ApprovalFault(c, st.records, a, allowed, valid).None? {
        CheckedCallOk(st.challenges, st.records, c, a, allowed, valid);
      }
    }
  }

  lemma EnteredHolderOk(records: Records, challenges: Challenges, c: Challenge, a: Approval)
    requires CallOk(challenges, Waiting(c, a)) && ActivationProofFor(records, ActivationOf(c, a)).Ok?
    ensures HolderOk(records, challenges, Holder(c, a, ActivationProofFor(records, ActivationOf(c, a)).value, false))
  {
  }

  lemma LockKeepsChallenges(records: Records, challenges: Challenges, proofs: Proofs, h: Holder)
    requires !h.persisted
    ensures ChallengesOk(records, challenges, proofs, Some(h)) <==> ChallengesOk(records, challenges, proofs, None)
  {
    forall id | id in challenges
      ensures ChallengeOk(records, Some(h), proofs, challenges[id], id) <==> ChallengeOk(records, None, proofs, challenges[id], id)
    {
    }
  }

  lemma FewerCalls(challenges: Challenges, calls: map<nat, Call>, n: nat)
    requires CallsOk(challenges, calls)
    ensures CallsOk(challenges, calls - {n})
  {
  }

  lemma EnterKeepsInv(st: State, n: nat)
    requires Inv(st)
    ensures Inv(DoEnter(st, n))
  {
    if n in st.calls && st.calls[n].Waiting? && st.lock.None? {
      var c, a := st.calls[n].challenge, st.calls[n].approval;
      assert CallOk(st.challenges, st.calls[n]);
      assert st.calls[n] == Waiting(c, a);
      FewerCalls(st.challenges, st.calls, n);
      if ActivationProofFor(st.records, ActivationOf(c, a)).Ok? {
        EnteredHolderOk(st.records, st.challenges, c, a);
        LockKeepsChallenges(st.records, st.challenges, st.proofs,
                            Holder(c, a, ActivationProofFor(st.records, ActivationOf(c, a)).value, false));
      }
    }
  }

  /** The store never refuses the holder of the registry lock: only a failing store stops an activation that
      has come this far. */
  lemma HolderIsNeverRefused(st: State)
    requires Inv(st) && st.lock.Some? && !st.lock.value.persisted
    ensures ConsumeFault(st.challenges, st.proofs, ProofOf(st.lock.value.challenge, st.lock.value.approval),
                         st.lock.value.approval.now).None?
  {
    var h := st.lock.value;
    assert ChallengeOk(st.records, st.lock, st.proofs, st.challenges[h.challenge.id], h.challenge.id);
    assert RecordInv(st.records[h.challenge.mandateId], h.challenge.mandateId);
  }

  lemma ConsumeKeepsChallenges(
    records: Records, challenges: Challenges, proofs: Proofs, h: Holder, p: ApprovalProof)
    requires ChallengesOk(records, challenges, proofs, Some(h)) && !h.persisted
    requires p.challengeId == h.challenge.id && p.challengeId in challenges
    ensures ChallengesOk(records, challenges[p.challengeId := Consumed(challenges[p.challengeId], h.approval.now)],
                         proofs[p.challengeId := p], Some(h.(persisted := true)))
  {
    var next := challenges[p.challengeId := Consumed(challenges[p.challengeId], h.approval.now)];
    forall id | id in next
      ensures ChallengeOk(records, Some(h.(persisted := true)), proofs[p.challengeId := p], next[id], id)
    {
      assert ChallengeOk(records, Some(h), proofs, challenges[id], id);
    }
  }

  lemma PersistedKeepsInv(st: State, h: Holder, p: ApprovalProof)
    requires Inv(st) && st.lock == Some(h) && !h.persisted && p.challengeId == h.challenge.id
    ensures p.challengeId in st.challenges
    ensures Inv(st.(challenges := st.challenges[p.challengeId := Consumed(st.challenges[p.challengeId], h.approval.now)],
                    proofs := st.proofs[p.challengeId := p], lock := Some(h.(persisted := true))))
  {
    var next := st.challenges[p.challengeId := Consumed(st.challenges[p.challengeId], h.approval.now)];
    ConsumeKeepsChallenges(st.records, st.challenges, st.proofs, h, p);
    CallsKept(st.challenges, next, st.calls);
    NamesKept(st.records, st.challenges, next);
    LockKept(st.records, st.challenges, next, st.lock);
  }

  lemma UnlockedKeepsInv(st: State, h: Holder)
    requires Inv(st) && st.lock == Some(h) && !h.persisted
    ensures Inv(st.(lock := None))
  {
    LockKeepsChallenges(st.records, st.challenges, st.proofs, h);
  }

  lemma PersistKeepsInv(st: State, fails: bool)
    requires Inv(st)
    ensures Inv(DoPersist(st, fails))
  {
    if st.lock.Some? && !st.lock.value.persisted {
      UnlockedKeepsInv(st, st.lock.value);
      PersistedKeepsInv(st, st.lock.value, ProofOf(st.lock.value.challenge, st.lock.value.approval));
    }
  }

  function CommittedRecords(records: Records, h: Holder): Records
    requires h.challenge.mandateId in records
  {
    records[h.challenge.mandateId := Activated(records[h.challenge.mandateId], h.proof)]
  }

  lemma CommitKeepsRecords(records: Records, challenges: Challenges, h: Holder)
    requires RecordsInv(records) && NamesOk(records, challenges) && HolderOk(records, challenges, h)
    ensures RecordsInv(CommittedRecords(records, h)) && NamesOk(CommittedRecords(records, h), challenges)
  {
    var mid := h.challenge.mandateId;
    assert RecordInv(records[mid], mid);
    assert challenges[h.challenge.id].(consumedAt := None).mandateId == mid;
  }

  lemma CommitKeepsCreating(records: Records, h: Holder, creating: map<nat, Challenge>)
    requires h.challenge.mandateId in records && CreatingOk(records, creating)
    ensures CreatingOk(CommittedRecords(records, h), creating)
  {
    assert forall n | n in creating :: ForMandate(records, creating[n]) ==> ForMandate(CommittedRecords(records, h), creating[n]);
  }

  lemma CommitKeepsChallenge(records: Records, challenges: Challenges, proofs: Proofs, h: Holder, id: string)
    requires HolderOk(records, challenges, h) && h.persisted && id in challenges
    requires RecordInv(records[h.challenge.mandateId], h.challenge.mandateId)
    requires ChallengeOk(records, Some(h), proofs, challenges[id], id)
    ensures ChallengeOk(CommittedRecords(records, h), None, proofs, challenges[id], id)
  {
    assert challenges[h.challenge.id].(consumedAt := None).mandateId == h.challenge.mandateId;
  }

  lemma CommitKeepsInv(st: State)
    requires Inv(st)
    ensures Inv(DoCommit(st))
  {
    if st.lock.Some? && st.lock.value.persisted {
      var h := st.lock.value;
      CommitKeepsRecords(st.records, st.challenges, h);
      CommitKeepsCreating(st.records, h, st.creating);
      assert RecordInv(st.records[h.challenge.mandateId], h.challenge.mandateId);
      forall id | id in st.challenges
        ensures ChallengeOk(CommittedRecords(st.records, h), None, st.proofs, st.challenges[id], id)
      {
        assert ChallengeOk(st.records, st.lock, st.proofs, st.challenges[id], id);
        CommitKeepsChallenge(st.records, st.challenges, st.proofs, h, id);
      }
    }
  }

  lemma NextKeepsInv(st: State, step: Step)
    requires Inv(st)
    ensures Inv(Next(st, step))
  {
    match step {
      case CreateMandate(terms, id) => CreateMandateKeepsInv(st, terms, id);
      case AskChallenge(n, input) => AskKeepsInv(st, n, input);
      case StoreChallenge(n) => StoreKeepsInv(st, n);
      case ReadChallenge(n, a) => ReadKeepsInv(st, n, a);
      case CheckApproval(n, allowed, valid) => CheckKeepsInv(st, n, allowed, valid);
      case Enter(n) => EnterKeepsInv(st, n);
      case Persist(fails) => PersistKeepsInv(st, fails);
      case Commit => CommitKeepsInv(st);
      case Revoke(id) => RevokeKeepsInv(st, id);
    }
  }

  lemma {:induction false} EveryRunKeepsInv(steps: seq<Step>)
    ensures Inv(Run(steps))
  {
    if steps != [] {
      EveryRunKeepsInv(steps[..|steps| - 1]);
      NextKeepsInv(Run(steps[..|steps| - 1]), steps[|steps| - 1]);
    }
  }

  // ---------------------------------------------------------------- all or nothing

  /** Outside the lock a challenge is consumed exactly when its mandate carries the proof that names it. */
  lemma ConsumedIffNamed(steps: seq<Step>, id: string)
    requires Run(steps).lock.None? && id in Run(steps).challenges
    ensures var st := Run(steps);
            && st.challenges[id].mandateId in st.records
            && (st.challenges[id].consumedAt.Some? <==> Names(st.records[st.challenges[id].mandateId], id))
  {
    EveryRunKeepsInv(steps);
    var st := Run(steps);
    assert ChallengeOk(st.records, st.lock, st.proofs, st.challenges[id], id);
  }

  /** At every step, inside the lock or out, a mandate has at most one consumed challenge. */
  lemma OneConsumedChallenge(steps: seq<Step>, a: string, b: string)
    requires a in Run(steps).challenges && b in Run(steps).challenges
    requires Run(steps).challenges[a].consumedAt.Some? && Run(steps).challenges[b].consumedAt.Some?
    requires Run(steps).challenges[a].mandateId == Run(steps).challenges[b].mandateId
    ensures a == b
  {
    var st := Run(steps);
    EveryRunKeepsInv(steps);
    assert ChallengeOk(st.records, st.lock, st.proofs, st.challenges[a], a);
    assert ChallengeOk(st.records, st.lock, st.proofs, st.challenges[b], b);
    if st.lock.Some? {
      var mid := st.lock.value.challenge.mandateId;
      assert RecordInv(st.records[mid], mid);
    }
  }

  /** A mandate that is active was approved through a challenge of its own, which is consumed. */
  lemma ActiveMeansApproved(steps: seq<Step>, id: string)
    requires id in Run(steps).records && Run(steps).records[id].status == Active
    ensures var st := Run(steps);
            exists c :: c in st.challenges && st.challenges[c].mandateId == id
                        && st.challenges[c].consumedAt.Some? && Names(st.records[id], c)
  {
    var st := Run(steps);
    EveryRunKeepsInv(steps);
    assert RecordInv(st.records[id], id) && NamedIsStored(st.records[id], st.challenges, id);
    var c := st.records[id].activationProof.value.challengeId.value;
    assert ChallengeOk(st.records, st.lock, st.proofs, st.challenges[c], c);
  }

  /** In every run, an approved mandate is accessible exactly while it is active and in its window, to the caller
      it names, once the clock has caught up with its approval: its stored proof and hash never stand in the way. */
  lemma ApprovedIsAccessible(steps: seq<Step>, q: AccessRequest, now: int)
    requires q.id in Run(steps).records
    ensures AuthorizedActive(Run(steps).records, q, now).Ok? <==>
              var m := Run(steps).records[q.id];
              && m.status == Active && SkewOk(q.clockSkewMs)
              && m.terms.issuedAt <= now < m.terms.expiresAt
              && m.terms.userReference == q.userReference && m.terms.agentId == q.agentId
              && m.terms.tenantId == q.tenantId && m.terms.audience == q.audience
              && m.activationProof.Some? && m.activationProof.value.activatedAt <= now + SkewOf(q.clockSkewMs)
  {
    EveryRunKeepsInv(steps);
    AccessDecidedByStateAndCaller(Run(steps).records, q, now);
    assert RecordInv(Run(steps).records[q.id], q.id);
  }

  lemma RevokedStays(st: State, step: Step, id: string)
    requires LockOk(st.records, st.challenges, st.lock) && id in st.records && st.records[id].status == Revoked
    ensures id in Next(st, step).records && Next(st, step).records[id] == st.records[id]
  {
  }

  lemma RunStep(init: seq<Step>, last: Step)
    ensures Run(init + [last]) == Next(Run(init), last)
  {
    assert (init + [last])[..|init|] == init;
  }

  lemma RevokedStaysInRun(steps: seq<Step>, step: Step, id: string)
    requires id in Run(steps).records && Run(steps).records[id].status == Revoked
    ensures id in Next(Run(steps), step).records && Next(Run(steps), step).records[id] == Run(steps).records[id]
  {
    EveryRunKeepsInv(steps);
    RevokedStays(Run(steps), step, id);
  }

  /** A revoked mandate never becomes active, nor anything else. */
  lemma {:induction false} RevokedIsFinal(steps: seq<Step>, more: seq<Step>, id: string)
    requires id in Run(steps).records && Run(steps).records[id].status == Revoked
    ensures id in Run(steps + more).records && Run(steps + more).records[id] == Run(steps).records[id]
  {
    if more == [] {
      assert steps + more == steps;
    } else {
      RevokedIsFinal(steps, more[..|more| - 1], id);
      assert steps + more == steps + more[..|more| - 1] + [more[|more| - 1]];
      RunStep(steps + more[..|more| - 1], more[|more| - 1]);
      RevokedStaysInRun(steps + more[..|more| - 1], more[|more| - 1], id);
    }
  }

  /** A store that fails leaves the mandate waiting for its signature and the challenge unconsumed. */
  lemma FailedPersistLeavesNoTrace(st: State)
    requires Inv(st) && st.lock.Some? && !st.lock.value.persisted
    ensures DoPersist(st, true) == st.(lock := None)
    ensures st.records[st.lock.value.challenge.mandateId].status == AwaitingUserSignature
    ensures st.challenges[st.lock.value.challenge.id].consumedAt.None?
  {
    HolderIsNeverRefused(st);
  }

  predicate Approvable(st: State, a: Approval) {
    && a.challengeId in st.challenges
    && var c := st.challenges[a.challengeId];
    && c.id == a.challengeId && c.consumedAt.None? && c.owner == a.owner
    && TimesIntact(c, a.now, a.clockSkewMs) && a.now < c.expiresAt && MandateIntact(c, st.records)
    && st.records[c.mandateId].status == AwaitingUserSignature && c.issuedAt <= a.now
  }

  function Approve(st: State, n: nat, a: Approval): State {
    DoCommit(DoPersist(DoEnter(DoCheck(DoRead(st, n, a), n, true, true), n), false))
  }

  lemma ApprovableEnters(st: State, n: nat, a: Approval)
    requires st.lock.None? && n !in st.calls && Approvable(st, a)
    ensures var c, t := st.challenges[a.challengeId], DoEnter(DoCheck(DoRead(st, n, a), n, true, true), n);
            && t == st.(lock := t.lock) && t.lock.Some? && !t.lock.value.persisted
            && t.lock.value.challenge == c && t.lock.value.approval == a
            && t.lock.value.proof.challengeId == Some(c.id)
  {
    var c := st.challenges[a.challengeId];
    var s1 := DoRead(st, n, a);
    assert s1.calls[n] == Read(c, a);
    var s2 := DoCheck(s1, n, true, true);
    assert s2.calls[n] == Waiting(c, a);
    var s3 := DoEnter(s2, n);
    assert s3.calls == st.calls;
  }

  lemma HolderCommits(st: State)
    requires Inv(st) && st.lock.Some? && !st.lock.value.persisted
    ensures var t, h := DoCommit(DoPersist(st, false)), st.lock.value;
            && t.lock.None? && h.challenge.mandateId in st.records && h.challenge.id in st.challenges
            && t.records == st.records[h.challenge.mandateId := Activated(st.records[h.challenge.mandateId], h.proof)]
            && t.challenges == st.challenges[h.challenge.id := Consumed(st.challenges[h.challenge.id], h.approval.now)]
  {
    HolderIsNeverRefused(st);
  }

  /** So the challenge can be used again: as long as it has not expired and the mandate still waits, a valid
      approval activates the mandate and consumes exactly this challenge. */
  lemma UnconsumedChallengeActivates(st: State, n: nat, a: Approval)
    requires Inv(st) && st.lock.None? && n !in st.calls && Approvable(st, a)
    ensures var t, c := Approve(st, n, a), st.challenges[a.challengeId];
            && t.lock.None? && c.mandateId in t.records
            && t.records == st.records[c.mandateId := t.records[c.mandateId]]
            && t.records[c.mandateId].status == Active && Names(t.records[c.mandateId], a.challengeId)
            && t.challenges == st.challenges[a.challengeId := Consumed(c, a.now)]
  {
    ApprovableEnters(st, n, a);
    ReadKeepsInv(st, n, a);
    CheckKeepsInv(DoRead(st, n, a), n, true, true);
    EnterKeepsInv(DoCheck(DoRead(st, n, a), n, true, true), n);
    HolderCommits(DoEnter(DoCheck(DoRead(st, n, a), n, true, true), n));
  }
}
