/** Why an answered challenge is refused (src/services/ceremony.ts:961-1134): the first thing that is wrong before the
    lock section, and the first that has changed when it is reached. */
module CeremonyRefusals {
  import opened Outcomes
  import opened ChallengeCeremony

  /** The principal is verified, and its verification is not over. */
  predicate InGoodStanding(st: Store, principalId: Option<string>, now: int) {
    && principalId.Some? && principalId.value in st.principals
    && var p := st.principals[principalId.value];
    && p.verified && (p.kycExpiresAt.None? || now < p.kycExpiresAt.value)
  }

  /** The credential is for this enrollment and this wallet, and still runs. */
  predicate IssuedFor(c: Credential, e: Enrollment, owner: Address, now: int) {
    && c.expiresAt > now && e.principalId == Some(c.principalId) && c.owner == owner
    && (c.thumbprint, c.registry, c.agentId) == (e.thumbprint, e.registry, e.agentId)
  }

  /** The wallet of the principal is the one on file for the enrollment, if there is one. */
  predicate SameWallet(e: Enrollment, wallet: Address) {
    e.owner.None? || e.owner.value == wallet
  }

  // ---------------------------------------------------------------- before the lock section

  ghost predicate NonceBars(n: Nonce, a: Answer, audience: string, now: int, why: Fault) {
    match why
    case Replay => n.consumedAt.Some?
    case ChallengeExpired => now >= n.expiresAt
    case AgentMismatch => a.agentUuid != n.agentUuid
    case AudienceMismatch => !(audience == n.audience == a.audience)
    case IntentMismatch => a.intentHash != n.intentHash
    case TimestampMismatch => a.timestamp != n.timestamp
    case _ => false
  }

  ghost predicate Bars(st: Store, a: Answer, audience: string, now: int, sigOk: bool, ownerOk: bool, why: Fault) {
    if a.agentUuid !in st.enrollments then why == NotBound
    else
      var e, c := st.enrollments[a.agentUuid], ActiveOf(st.credentials, a.agentUuid);
      match why
      case NotBound => e.status != Bound
      case NoCredential => forall i | 0 <= i < |st.credentials| && st.credentials[i].agentUuid == a.agentUuid ::
                             st.credentials[i].status != Active
      case KycRequired => !InGoodStanding(st, e.principalId, now)
      case BindingMismatch =>
        && c.Some? && e.principalId.Some? && e.principalId.value in st.principals
        && var wallet := st.principals[e.principalId.value].ownerAddress;
        && !(SameWallet(e, wallet) && IssuedFor(c.value, e, wallet, now))
      case UnknownNonce => a.nonce !in st.nonces
      case BadSignature => !sigOk
      case OwnerMismatch => e.agentId.Some? && e.registry.Some? && !ownerOk
      case _ => a.nonce in st.nonces && NonceBars(st.nonces[a.nonce], a, audience, now, why)
  }

  function Turn(why: Fault): nat {
    match why
    case NotBound => 0
    case NoCredential => 1
    case KycRequired => 2
    case BindingMismatch => 3
    case UnknownNonce => 4
    case Replay => 5
    case ChallengeExpired => 6
    case AgentMismatch => 7
    case AudienceMismatch => 8
    case IntentMismatch => 9
    case TimestampMismatch => 10
    case BadSignature => 11
    case OwnerMismatch => 12
    case _ => 13
  }

  lemma {:induction false} NoActiveIff(cs: seq<Credential>, agent: string)
    ensures ActiveOf(cs, agent).None? <==> forall i | 0 <= i < |cs| && cs[i].agentUuid == agent :: cs[i].status != Active
  {
    if cs != [] {
      NoActiveIff(cs[1..], agent);
      assert cs == [cs[0]] + cs[1..];
      assert forall i | 0 <= i < |cs| - 1 :: cs[1..][i] == cs[i + 1];
    }
  }

  lemma ReadBarred(st: Store, a: Answer, audience: string, now: int, sigOk: bool, ownerOk: bool)
    requires Read(st, a, audience, now, sigOk, ownerOk).Err?
    ensures Bars(st, a, audience, now, sigOk, ownerOk, Read(st, a, audience, now, sigOk, ownerOk).error)
  {
    NoActiveIff(st.credentials, a.agentUuid);
  }

  lemma IdentityIsFirst(st: Store, a: Answer, audience: string, now: int, sigOk: bool, ownerOk: bool, why: Fault)
    requires Bars(st, a, audience, now, sigOk, ownerOk, why) && Turn(why) <= 3
    ensures Read(st, a, audience, now, sigOk, ownerOk).Err?
    ensures Turn(Read(st, a, audience, now, sigOk, ownerOk).error) <= Turn(why)
  {
    NoActiveIff(st.credentials, a.agentUuid);
  }

  lemma NonceIsFirst(st: Store, a: Answer, audience: string, now: int, sigOk: bool, ownerOk: bool, why: Fault)
    requires Bars(st, a, audience, now, sigOk, ownerOk, why) && 3 < Turn(why)
    ensures Read(st, a, audience, now, sigOk, ownerOk).Err?
    ensures Turn(Read(st, a, audience, now, sigOk, ownerOk).error) <= Turn(why)
  {
  }

  lemma ReadIsFirst(st: Store, a: Answer, audience: string, now: int, sigOk: bool, ownerOk: bool, why: Fault)
    requires Bars(st, a, audience, now, sigOk, ownerOk, why)
    ensures Read(st, a, audience, now, sigOk, ownerOk).Err?
    ensures Turn(Read(st, a, audience, now, sigOk, ownerOk).error) <= Turn(why)
  {
    if Turn(why) <= 3 {
      IdentityIsFirst(st, a, audience, now, sigOk, ownerOk, why);
    } else {
      NonceIsFirst(st, a, audience, now, sigOk, ownerOk, why);
    }
  }

  /** An answer is read exactly when nothing bars it, and otherwise refused for the first thing that does. */
  lemma BarredByFirst(st: Store, a: Answer, audience: string, now: int, sigOk: bool, ownerOk: bool)
    ensures var r := Read(st, a, audience, now, sigOk, ownerOk);
            && (r.Ok? <==> forall why :: !Bars(st, a, audience, now, sigOk, ownerOk, why))
            && (r.Err? ==> Bars(st, a, audience, now, sigOk, ownerOk, r.error)
                           && forall why | Bars(st, a, audience, now, sigOk, ownerOk, why) :: Turn(r.error) <= Turn(why))
  {
    if Read(st, a, audience, now, sigOk, ownerOk).Err? {
      ReadBarred(st, a, audience, now, sigOk, ownerOk);
    }
    forall why | Bars(st, a, audience, now, sigOk, ownerOk, why)
      ensures Read(st, a, audience, now, sigOk, ownerOk).Err?
      ensures Turn(Read(st, a, audience, now, sigOk, ownerOk).error) <= Turn(why)
    {
      ReadIsFirst(st, a, audience, now, sigOk, ownerOk, why);
    }
  }

  // ---------------------------------------------------------------- in the lock section

  /** Something differs from what the call has read, or no longer holds. */
  ghost predicate Changed(st: Store, r: Reading, audience: string, now: int, why: Fault) {
    if r.answer.nonce !in st.nonces then why == UnknownNonce
    else
      var n, agent := st.nonces[r.answer.nonce], r.answer.agentUuid;
      match why
      case Replay => n.consumedAt.Some?
      case ChallengeExpired => now >= n.expiresAt
      case AgentMismatch => agent != n.agentUuid
      case BindingChanged =>
        n.audience != audience || (n.audience, n.intentHash, n.timestamp) != (r.record.audience, r.record.intentHash, r.record.timestamp)
      case EnrollmentChanged =>
        agent !in st.enrollments || st.enrollments[agent].status != Bound || !SameParties(st.enrollments[agent], r.enrollment)
      case KeyChanged => agent in st.enrollments && st.enrollments[agent].keyThumbprint != Some(st.enrollments[agent].thumbprint)
      case PrincipalChanged =>
        && agent in st.enrollments
        && var e := st.enrollments[agent];
        && !(InGoodStanding(st, e.principalId, now) && st.principals[e.principalId.value].ownerAddress == r.expectedOwner
             && SameWallet(e, r.expectedOwner))
      case CredentialChanged =>
        && agent in st.enrollments
        && var c := ByJti(st.credentials, r.credentialJti);
        && !(c.Some? && c.value.status == Active && c.value.agentUuid == agent
             && IssuedFor(c.value, st.enrollments[agent], r.expectedOwner, now))
      case TokenChanged =>
        && agent in st.enrollments
        && !(r.token.agentUuid == agent && st.enrollments[agent].principalId == Some(r.token.principalId)
             && r.token.credentialJti == r.credentialJti && r.token.jkt == st.enrollments[agent].thumbprint)
      case _ => false
  }

  predicate SameParties(e: Enrollment, f: Enrollment) {
    (e.principalId, e.thumbprint, e.registry, e.agentId, e.owner) == (f.principalId, f.thumbprint, f.registry, f.agentId, f.owner)
  }

  function Rank(why: Fault): nat {
    match why
    case UnknownNonce => 0
    case Replay => 1
    case ChallengeExpired => 2
    case AgentMismatch => 3
    case BindingChanged => 4
    case EnrollmentChanged => 5
    case KeyChanged => 6
    case PrincipalChanged => 7
    case CredentialChanged => 8
    case TokenChanged => 9
    case _ => 10
  }

  lemma CommitChanged(st: Store, r: Reading, audience: string, now: int)
    requires CommitFault(st, r, audience, now).Some?
    ensures Changed(st, r, audience, now, CommitFault(st, r, audience, now).value)
  {
  }

  lemma CommitIsFirst(st: Store, r: Reading, audience: string, now: int, why: Fault)
    requires Changed(st, r, audience, now, why)
    ensures CommitFault(st, r, audience, now).Some? && Rank(CommitFault(st, r, audience, now).value) <= Rank(why)
  {
  }

  /** The lock section consumes the nonce and appends the token exactly when nothing has changed, and otherwise names
      the first thing that has. */
  lemma ChangedIsNamed(st: Store, r: Reading, audience: string, now: int)
    ensures var f := CommitFault(st, r, audience, now);
            && (f.None? <==> forall why :: !Changed(st, r, audience, now, why))
            && (f.Some? ==> Changed(st, r, audience, now, f.value)
                            && forall why | Changed(st, r, audience, now, why) :: Rank(f.value) <= Rank(why))
  {
    if CommitFault(st, r, audience, now).Some? {
      CommitChanged(st, r, audience, now);
    }
    forall why | Changed(st, r, audience, now, why)
      ensures CommitFault(st, r, audience, now).Some? && Rank(CommitFault(st, r, audience, now).value) <= Rank(why)
    {
      CommitIsFirst(st, r, audience, now, why);
    }
  }
}
