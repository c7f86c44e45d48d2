/** What is asked of a challenge and of its approval (src/mandates/trusted-surface.ts), one question after the other:
    when it is made, when it is signed, and when it is consumed. */
module ApprovalRefusals {
  import opened Outcomes
  import opened OpenMandates
  import opened TrustedSurface

  // ---------------------------------------------------------------- making a challenge

  /** The window of a challenge, in whole seconds: the widest one that begins no earlier than the mandate and than the
      second of the clock, and ends no later than the mandate and than the time to live. */
  predicate WidestWindow(c: Challenge, m: OpenMandate, now: int, ttlSeconds: int) {
    var earliest, latest := Max(now / 1000 * 1000, m.terms.issuedAt), Min(m.terms.expiresAt, now + ttlSeconds * 1000);
    && c.issuedAt % 1000 == 0 && c.expiresAt % 1000 == 0
    && earliest <= c.issuedAt < earliest + 1000 && latest - 1000 < c.expiresAt <= latest
  }

  /** The message that the wallet is to sign names the mandate, the user, the agent, the nonce and the window. */
  predicate Describes(message: Message, m: OpenMandate, nonce: string, issuedAt: int, expiresAt: int) {
    && message.mandateHash == PayloadOf(m.id, m.terms) && message.userReferenceHash == m.terms.userReference
    && message.agentIdHash == m.terms.agentId && message.nonceHash == nonce
    && 1000 * message.issuedAt == issuedAt && 1000 * message.expiresAt == expiresAt
  }

  /** A new challenge is for its mandate and its owner, has the widest window, describes what is to be signed, and is
      not consumed. */
  lemma NewChallengeSays(records: Records, input: ChallengeInput)
    requires NewChallenge(records, input).Ok?
    ensures var c, m := NewChallenge(records, input).value, records[input.mandateId];
            && c.id == input.id && c.mandateId == m.id && c.owner == input.owner && c.nonce == input.nonce
            && c.consumedAt.None? && c.expectedPayloadHash == m.canonicalPayloadHash
            && WidestWindow(c, m, input.now, input.ttlSeconds)
            && Describes(c.message, m, input.nonce, c.issuedAt, c.expiresAt) && c.issuedAt < c.expiresAt
  {
  }

  /** Some whole second lies in both windows, and another one after it. */
  predicate HasWindow(m: OpenMandate, now: int, ttlSeconds: int) {
    && ttlSeconds > 0
    && Max(now / 1000, (m.terms.issuedAt + 999) / 1000) < Min(m.terms.expiresAt / 1000, now / 1000 + ttlSeconds)
  }

  ghost predicate Prevents(records: Records, input: ChallengeInput, why: ApprovalError) {
    if input.mandateId !in records then why == MandateState
    else
      var m := records[input.mandateId];
      match why
      case MandateState => m.status != AwaitingUserSignature
      case ApprovalExpired => input.now >= m.terms.expiresAt
      case MandateNotYetValid => input.now < m.terms.issuedAt
      case HashMismatch => m.canonicalPayloadHash != PayloadOf(m.id, m.terms)
      case NotAllowed => !input.allowed
      case NoWindow => !HasWindow(m, input.now, input.ttlSeconds)
      case _ => false
  }

  function AskedAt(why: ApprovalError): nat {
    match why
    case MandateState => 0
    case ApprovalExpired => 1
    case MandateNotYetValid => 2
    case HashMismatch => 3
    case NotAllowed => 4
    case NoWindow => 5
    case _ => 6
  }

  /** No challenge is made for the first thing that prevents one, and for nothing else. */
  lemma PreventedByFirst(records: Records, input: ChallengeInput)
    ensures var r := NewChallenge(records, input);
            && (r.Ok? <==> forall why :: !Prevents(records, input, why))
            && (r.Err? ==> Prevents(records, input, r.error)
                           && forall why | Prevents(records, input, why) :: AskedAt(r.error) <= AskedAt(why))
  {
    var r := NewChallenge(records, input);
    if input.mandateId in records {
      MinOfSeconds(records[input.mandateId].terms.expiresAt, input.now, input.ttlSeconds);
    }
    if r.Err? {
      assert Prevents(records, input, r.error);
    }
  }

  lemma MinOfSeconds(expiresAt: int, now: int, ttlSeconds: int)
    ensures Min(expiresAt, now + ttlSeconds * 1000) / 1000 == Min(expiresAt / 1000, now / 1000 + ttlSeconds)
  {
  }

  /** A challenge that is made is stored under its id, unless the id is taken; then nothing has changed. */
  lemma ChallengeIsStored(st: State, n: nat, input: ChallengeInput)
    requires n !in st.creating && NewChallenge(st.records, input).Ok?
    ensures var c := NewChallenge(st.records, input).value;
            Next(Next(st, AskChallenge(n, input)), StoreChallenge(n))
            == if c.id in st.challenges then st else st.(challenges := st.challenges[c.id := c])
  {
    assert st.creating[n := NewChallenge(st.records, input).value] - {n} == st.creating;
  }

  lemma NoChallengeIsStored(st: State, n: nat, input: ChallengeInput)
    requires NewChallenge(st.records, input).Err?
    ensures Next(st, AskChallenge(n, input)) == st
  {
  }

  // ---------------------------------------------------------------- approving it

  /** The challenge is as it was made for a mandate of these records, and this clock does not contradict it. */
  predicate Intact(c: Challenge, records: Records, a: Approval) {
    && c.issuedAt < c.expiresAt && c.issuedAt <= a.now + a.clockSkewMs
    && c.mandateId != "" && c.nonce != "" && c.mandateId in records
    && var m := records[c.mandateId];
    && m.id == c.mandateId && m.terms.issuedAt <= c.issuedAt && c.expiresAt <= m.terms.expiresAt
    && PayloadOf(m.id, m.terms) == m.canonicalPayloadHash == c.expectedPayloadHash
    && Describes(c.message, m, c.nonce, c.issuedAt, c.expiresAt)
  }

  ghost predicate Stops(c: Challenge, records: Records, a: Approval, allowed: bool, valid: bool, why: ApprovalError) {
    match why
    case Replay => c.consumedAt.Some?
    case Subject => c.owner != a.owner
    case ApprovalExpired => a.now >= c.expiresAt
    case Integrity => c.id != a.challengeId || !Intact(c, records, a)
    case NotAllowed => !allowed
    case Signature => !valid
    case _ => false
  }

  /** Of the questions that can be answered before the challenge is compared with the records, the first that fails is
      the answer; then come its integrity, the wallet and the signature. */
  function Rank(why: ApprovalError): nat {
    match why
    case Replay => 0
    case Subject => 1
    case ApprovalExpired => 2
    case Integrity => 3
    case NotAllowed => 4
    case Signature => 5
    case _ => 6
  }

  /** An approval goes on exactly when nothing stops it. A refusal names something that is wrong; unless it is the
      integrity, it names the first such thing, and a wallet is only asked for when everything else is right. */
  lemma StoppedIff(c: Challenge, records: Records, a: Approval, allowed: bool, valid: bool)
    ensures var f := ApprovalFault(c, records, a, allowed, valid);
            && (f.None? <==> forall why :: !Stops(c, records, a, allowed, valid, why))
            && (f.Some? ==> Stops(c, records, a, allowed, valid, f.value))
            && (f.Some? && f != Some(Integrity) ==>
                  forall why | Stops(c, records, a, allowed, valid, why) :: Rank(f.value) <= Rank(why))
            && (f == Some(Integrity) && c.id == a.challengeId ==> c.consumedAt.None? && c.owner == a.owner)
  {
    var f := ApprovalFault(c, records, a, allowed, valid);
    if f.Some? {
      assert Stops(c, records, a, allowed, valid, f.value);
    }
  }

  // ---------------------------------------------------------------- consuming it

  ghost predicate Blocks(challenges: Challenges, proofs: Proofs, p: ApprovalProof, now: int, why: ApprovalError) {
    if p.challengeId !in challenges then why == ChallengeNotFound
    else
      var c := challenges[p.challengeId];
      match why
      case Replay => c.consumedAt.Some? || p.challengeId in proofs
      case ApprovalExpired => now >= c.expiresAt
      case Subject => (c.mandateId, c.owner) != (p.mandateId, p.owner)
      case HashMismatch => c.expectedPayloadHash != p.payloadHash
      case _ => false
  }

  function Order(why: ApprovalError): nat {
    match why
    case ChallengeNotFound => 0
    case Replay => 1
    case ApprovalExpired => 2
    case Subject => 3
    case HashMismatch => 4
    case _ => 5
  }

  /** A challenge is consumed exactly when nothing blocks it, and otherwise the first such thing is named. */
  lemma BlockedByFirst(challenges: Challenges, proofs: Proofs, p: ApprovalProof, now: int)
    ensures var f := ConsumeFault(challenges, proofs, p, now);
            && (f.None? <==> forall why :: !Blocks(challenges, proofs, p, now, why))
            && (f.Some? ==> Blocks(challenges, proofs, p, now, f.value)
                            && forall why | Blocks(challenges, proofs, p, now, why) :: Order(f.value) <= Order(why))
  {
    var f := ConsumeFault(challenges, proofs, p, now);
    if f.Some? {
      assert Blocks(challenges, proofs, p, now, f.value);
    }
  }
}
