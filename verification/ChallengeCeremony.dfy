/** Agent challenges (src/services/ceremony.ts:928-1134): a call reads the store and checks a signed answer,
    then, after the external reads, one lock section checks everything again, consumes the nonce and appends
    the access token. Key rotation, revocation, transfer, KYC changes and credential issue
    (src/credentials/jws.ts:70-131) come in between. Addresses are compared without regard to case, so they are
    numbers. */
module ChallengeCeremony {
  import opened Outcomes

  type Address = nat

  datatype EnrollmentStatus = Bound | SuspendedEnrollment | AwaitingFingerprint | RevokedEnrollment | OtherEnrollment

  /** `keyThumbprint` is the thumbprint of the public key on file, if that key is usable. */
  datatype Enrollment = Enrollment(
    status: EnrollmentStatus, principalId: Option<string>, thumbprint: string, keyThumbprint: Option<string>,
    registry: Option<string>, agentId: Option<string>, owner: Option<Address>)

  datatype Principal = Principal(ownerAddress: Address, verified: bool, kycExpiresAt: Option<int>)

  datatype CredentialStatus = Active | Suspended | Revoked | Expired

  datatype Credential = Credential(
    jti: string, agentUuid: string, principalId: string, thumbprint: string, registry: Option<string>,
    agentId: Option<string>, owner: Address, status: CredentialStatus, expiresAt: int)

  datatype Nonce = Nonce(
    nonce: string, agentUuid: string, audience: string, intentHash: string, timestamp: string, expiresAt: int,
    consumedAt: Option<int>)

  /** `nonce` is kept for the statements about nonces. */
  datatype Token = Token(agentUuid: string, principalId: string, credentialJti: string, jkt: string, nonce: string)

  datatype Store = Store(
    enrollments: map<string, Enrollment>, principals: map<string, Principal>, credentials: seq<Credential>,
    nonces: map<string, Nonce>, tokens: seq<Token>)

  predicate CanAuthorize(p: Principal, now: int) {
    p.verified && (p.kycExpiresAt.Some? ==> p.kycExpiresAt.value > now)
  }

  function PrincipalOf(st: Store, e: Enrollment): Option<Principal> {
    if e.principalId.Some? && e.principalId.value in st.principals then Some(st.principals[e.principalId.value]) else None
  }

  // ---------------------------------------------------------------- credentials

  /** The statuses of one agent's credentials that are in `from` become revoked. */
  function Revoke(cs: seq<Credential>, agent: string, from: set<CredentialStatus>): (r: seq<Credential>)
    ensures |r| == |cs|
    ensures forall i | 0 <= i < |cs| ::
              r[i] == if cs[i].agentUuid == agent && cs[i].status in from then cs[i].(status := Revoked) else cs[i]
  {
    if cs == [] then []
    else
      var c := cs[|cs| - 1];
      Revoke(cs[..|cs| - 1], agent, from) + [if c.agentUuid == agent && c.status in from then c.(status := Revoked) else c]
  }

  function Issue(cs: seq<Credential>, c: Credential): seq<Credential> {
    Revoke(cs, c.agentUuid, {Active}) + [c]
  }

  function SetStatus(cs: seq<Credential>, jti: string, status: CredentialStatus): (r: seq<Credential>)
    ensures |r| == |cs|
    ensures forall i | 0 <= i < |cs| :: r[i] == cs[i] || (cs[i].jti == jti && r[i] == cs[i].(status := status))
  {
    if cs == [] then [] else
    if cs[0].jti == jti then [cs[0].(status := status)] + cs[1..] else [cs[0]] + SetStatus(cs[1..], jti, status)
  }

  /** The first credential of the list with this id. */
  function ByJti(cs: seq<Credential>, jti: string): (r: Option<Credential>)
    ensures r.Some? ==> r.value in cs && r.value.jti == jti
    ensures r.None? ==> forall i | 0 <= i < |cs| :: cs[i].jti != jti
  {
    if cs == [] then None else if cs[0].jti == jti then Some(cs[0]) else ByJti(cs[1..], jti)
  }

  function ActiveOf(cs: seq<Credential>, agent: string): (r: Option<Credential>)
    ensures r.Some? ==> r.value in cs && r.value.agentUuid == agent && r.value.status == Active
  {
    if cs == [] then None
    else if cs[0].agentUuid == agent && cs[0].status == Active then Some(cs[0])
    else ActiveOf(cs[1..], agent)
  }

  // ---------------------------------------------------------------- the two phases of verifyChallenge

  datatype Answer = Answer(
    agentUuid: string, nonce: string, audience: string, timestamp: string, intentHash: string)

  /** What a call has read and computed before its lock section. */
  datatype Reading = Reading(
    answer: Answer, enrollment: Enrollment, credentialJti: string, expectedOwner: Address, record: Nonce, token: Token)

  datatype Fault =
    | NotBound | NoCredential | KycRequired | BindingMismatch | UnknownNonce | Replay | ChallengeExpired | AgentMismatch
    | AudienceMismatch | IntentMismatch | TimestampMismatch | BadSignature | OwnerMismatch
    | BindingChanged | EnrollmentChanged | KeyChanged | PrincipalChanged | CredentialChanged | TokenChanged

  predicate CredentialMatches(c: Credential, e: Enrollment, owner: Address, now: int) {
    && e.principalId == Some(c.principalId) && now < c.expiresAt
    && c.thumbprint == e.thumbprint && c.registry == e.registry && c.agentId == e.agentId && c.owner == owner
  }

  /** The checks before the lock section; `sigOk` and `ownerOk` are what the signature verifier and the chain say. */
  function Read(st: Store, a: Answer, audience: string, now: int, sigOk: bool, ownerOk: bool): Result<Reading, Fault> {
    if a.agentUuid !in st.enrollments || st.enrollments[a.agentUuid].status != Bound then Err(NotBound)
    else
      var e := st.enrollments[a.agentUuid];
      var c, p := ActiveOf(st.credentials, a.agentUuid), PrincipalOf(st, e);
      if c.None? then Err(NoCredential)
      else if p.None? || !CanAuthorize(p.value, now) then Err(KycRequired)
      else
        var owner := e.owner.GetOr(p.value.ownerAddress);
        if !CredentialMatches(c.value, e, owner, now) || p.value.ownerAddress != owner then Err(BindingMismatch)
        else if a.nonce !in st.nonces then Err(UnknownNonce)
        else
          var n := st.nonces[a.nonce];
          if n.consumedAt.Some? then Err(Replay)
          else if n.expiresAt <= now then Err(ChallengeExpired)
          else if n.agentUuid != a.agentUuid then Err(AgentMismatch)
          else if n.audience != audience || a.audience != n.audience then Err(AudienceMismatch)
          else if a.intentHash != n.intentHash then Err(IntentMismatch)
          else if a.timestamp != n.timestamp then Err(TimestampMismatch)
          else if !sigOk then Err(BadSignature)
          else if e.agentId.Some? && e.registry.Some? && !ownerOk then Err(OwnerMismatch)
          else Ok(Reading(a, e, c.value.jti, owner, n,
                          Token(a.agentUuid, e.principalId.value, c.value.jti, e.thumbprint, a.nonce)))
  }

  predicate SameBinding(a: Enrollment, b: Enrollment) {
    a.principalId == b.principalId && a.thumbprint == b.thumbprint && a.registry == b.registry && a.agentId == b.agentId
    && a.owner == b.owner
  }

  /** The checks of the lock section. */
  function CommitFault(st: Store, r: Reading, audience: string, now: int): Option<Fault> {
    if r.answer.nonce !in st.nonces then Some(UnknownNonce)
    else
      var n := st.nonces[r.answer.nonce];
      if n.consumedAt.Some? then Some(Replay)
      else if n.expiresAt <= now then Some(ChallengeExpired)
      else if n.agentUuid != r.answer.agentUuid then Some(AgentMismatch)
      else if n.audience != r.record.audience || n.intentHash != r.record.intentHash || n.timestamp != r.record.timestamp
              || n.audience != audience then Some(BindingChanged)
      else if r.answer.agentUuid !in st.enrollments then Some(EnrollmentChanged)
      else
        var e := st.enrollments[r.answer.agentUuid];
        if e.status != Bound || !SameBinding(e, r.enrollment) then Some(EnrollmentChanged)
        else if e.keyThumbprint != Some(e.thumbprint) then Some(KeyChanged)
        else
          var p := PrincipalOf(st, e);
          if p.None? || !CanAuthorize(p.value, now) || e.owner.GetOr(p.value.ownerAddress) != r.expectedOwner
             || p.value.ownerAddress != r.expectedOwner then Some(PrincipalChanged)
          else
            var c := ByJti(st.credentials, r.credentialJti);
            if c.None? || c.value.status != Active || c.value.agentUuid != r.answer.agentUuid
               || !CredentialMatches(c.value, e, r.expectedOwner, now) then Some(CredentialChanged)
            else if r.token.agentUuid != r.answer.agentUuid || e.principalId != Some(r.token.principalId)
                    || r.token.credentialJti != c.value.jti || r.token.jkt != e.thumbprint then Some(TokenChanged)
            else None
  }

  function Committed(st: Store, r: Reading, now: int): Store
    requires r.answer.nonce in st.nonces
  {
    st.(nonces := st.nonces[r.answer.nonce := st.nonces[r.answer.nonce].(consumedAt := Some(now))],
        tokens := st.tokens + [r.token])
  }

  function Commit(st: Store, r: Reading, audience: string, now: int): Store {
    if CommitFault(st, r, audience, now).None? then Committed(st, r, now) else st
  }

  // ---------------------------------------------------------------- the store

  class KyaStore {
    var enrollments: map<string, Enrollment>
    var principals: map<string, Principal>
    var credentials: seq<Credential>
    var nonces: map<string, Nonce>
    var tokens: seq<Token>

    function State(): Store
      reads this
    {
      Store(enrollments, principals, credentials, nonces, tokens)
    }

    constructor ()
      ensures State() == Store(map[], map[], [], map[], [])
    {
      enrollments, principals, credentials, nonces, tokens := map[], map[], [], map[], [];
    }

    method RevokeCredentials(agent: string, from: set<CredentialStatus>)
      modifies this`credentials
      ensures credentials == Revoke(old(credentials), agent, from)
    {
      ghost var was := credentials;
      var i := 0;
      while i < |credentials|
        invariant 0 <= i <= |credentials| == |was|
        invariant forall k | 0 <= k < i :: credentials[k] == Revoke(was, agent, from)[k]
        invariant forall k | i <= k < |was| :: credentials[k] == was[k]
      {
        if credentials[i].agentUuid == agent && credentials[i].status in from {
          credentials := credentials[i := credentials[i].(status := Revoked)];
        }
        i := i + 1;
      }
    }

    method IssueCredential(c: Credential)
      modifies this`credentials
      ensures credentials == Issue(old(credentials), c)
    {
      RevokeCredentials(c.agentUuid, {Active});
      credentials := credentials + [c];
    }

    method CommitChallenge(r: Reading, audience: string, now: int) returns (fault: Option<Fault>)
      modifies this`nonces, this`tokens
      ensures fault == CommitFault(old(State()), r, audience, now)
      ensures State() == Commit(old(State()), r, audience, now)
    {
      fault := CommitFault(State(), r, audience, now);
      if fault.None? {
        nonces := nonces[r.answer.nonce := nonces[r.answer.nonce].(consumedAt := Some(now))];
        tokens := tokens + [r.token];
      }
    }

    method RotateKey(agent: string, owner: Address, thumbprint: string) returns (ok: bool)
      modifies this`credentials, this`enrollments
      ensures ok == MayRotate(old(State()), agent, owner)
      ensures State() == Rotated(old(State()), agent, owner, thumbprint)
    {
      ok := MayRotate(State(), agent, owner);
      if ok {
        RevokeCredentials(agent, {Active, Suspended});
        enrollments := enrollments[agent := enrollments[agent].(
                         thumbprint := thumbprint, keyThumbprint := Some(thumbprint), status := AwaitingFingerprint)];
      }
    }

    method RevokeAgent(agent: string, owner: Address) returns (ok: bool)
      modifies this`credentials, this`enrollments
      ensures ok == OwnedBy(old(State()), agent, owner)
      ensures State() == AgentRevoked(old(State()), agent, owner)
    {
      ok := OwnedBy(State(), agent, owner);
      if ok {
        enrollments := enrollments[agent := enrollments[agent].(status := RevokedEnrollment)];
        RevokeCredentials(agent, {Active, Suspended, Expired});
      }
    }
  }

  predicate OwnedBy(st: Store, agent: string, owner: Address) {
    && agent in st.enrollments && PrincipalOf(st, st.enrollments[agent]).Some?
    && PrincipalOf(st, st.enrollments[agent]).value.ownerAddress == owner
  }

  predicate MayRotate(st: Store, agent: string, owner: Address) {
    OwnedBy(st, agent, owner) && st.enrollments[agent].agentId.Some? && st.enrollments[agent].registry.Some?
  }

  function Rotated(st: Store, agent: string, owner: Address, thumbprint: string): Store {
    if !MayRotate(st, agent, owner) then st
    else
      st.(credentials := Revoke(st.credentials, agent, {Active, Suspended}),
          enrollments := st.enrollments[agent := st.enrollments[agent].(
                           thumbprint := thumbprint, keyThumbprint := Some(thumbprint), status := AwaitingFingerprint)])
  }

  function AgentRevoked(st: Store, agent: string, owner: Address): Store {
    if !OwnedBy(st, agent, owner) then st
    else
      st.(enrollments := st.enrollments[agent := st.enrollments[agent].(status := RevokedEnrollment)],
          credentials := Revoke(st.credentials, agent, {Active, Suspended, Expired}))
  }

  /** The lock section of rebindAfterTransfer. */
  function Rebound(st: Store, agent: string, principalId: string, owner: Address): Store {
    if agent !in st.enrollments || st.enrollments[agent].status != SuspendedEnrollment then st
    else
      st.(credentials := Revoke(st.credentials, agent, {Active, Suspended, Expired}),
          enrollments := st.enrollments[agent := st.enrollments[agent].(
                           principalId := Some(principalId), owner := Some(owner), status := AwaitingFingerprint)])
  }

  // ---------------------------------------------------------------- runs

  /** Enroll and SetPrincipal stand for everything else that writes enrollments and principals: fingerprint
      approvals, transfers, KYC results. */
  datatype Step =
    | AskChallenge(call: nat, n: Nonce)
    | PushChallenge(call: nat)
    | ReadAnswer(call: nat, answer: Answer, now: int, sigOk: bool, ownerOk: bool)
    | CommitAnswer(call: nat, now: int)
    | IssueStep(c: Credential)
    | SuspendStep(jti: string)
    | RotateStep(agent: string, owner: Address, thumbprint: string)
    | RevokeStep(agent: string, owner: Address)
    | RebindStep(agent: string, principalId: string, owner: Address)
    | Enroll(agent: string, e: Enrollment)
    | SetPrincipal(principalId: string, p: Principal)

  /** `asked` are the challenges whose agent was bound when they were asked for, and that are not stored yet. */
  datatype State = State(store: Store, calls: map<nat, Reading>, asked: map<nat, Nonce>)

  function DoRead(s: State, audience: string, call: nat, a: Answer, now: int, sigOk: bool, ownerOk: bool): State {
    var r := Read(s.store, a, audience, now, sigOk, ownerOk);
    if call in s.calls || r.Err? then s else s.(calls := s.calls[call := r.value])
  }

  /** The agent must be bound now; whether it still is when the challenge is stored is not asked. */
  function DoAsk(s: State, call: nat, n: Nonce): State {
    if call in s.asked || n.consumedAt.Some? || n.agentUuid !in s.store.enrollments
       || s.store.enrollments[n.agentUuid].status != Bound then s
    else s.(asked := s.asked[call := n])
  }

  /** Nonces are random, so they are fresh. */
  function DoPush(s: State, call: nat): State {
    if call !in s.asked || s.asked[call].nonce in s.store.nonces then s
    else
      var n := s.asked[call];
      s.(store := s.store.(nonces := s.store.nonces[n.nonce := n]), asked := s.asked - {call})
  }

  function StoreAfter(st: Store, step: Step): Store {
    match step
    case IssueStep(c) =>
      if c.status != Active || ByJti(st.credentials, c.jti).Some? then st else st.(credentials := Issue(st.credentials, c))
    case SuspendStep(jti) => st.(credentials := SetStatus(st.credentials, jti, Suspended))
    case RotateStep(agent, owner, thumbprint) => Rotated(st, agent, owner, thumbprint)
    case RevokeStep(agent, owner) => AgentRevoked(st, agent, owner)
    case RebindStep(agent, principalId, owner) => Rebound(st, agent, principalId, owner)
    case Enroll(agent, e) => st.(enrollments := st.enrollments[agent := e])
    case SetPrincipal(id, p) => st.(principals := st.principals[id := p])
    case _ => st
  }

  function Next(s: State, audience: string, step: Step): State {
    if step.ReadAnswer? then DoRead(s, audience, step.call, step.answer, step.now, step.sigOk, step.ownerOk)
    else if step.CommitAnswer? then
      if step.call !in s.calls then s
      else s.(store := Commit(s.store, s.calls[step.call], audience, step.now), calls := s.calls - {step.call})
    else if step.AskChallenge? then DoAsk(s, step.call, step.n)
    else if step.PushChallenge? then DoPush(s, step.call)
    else s.(store := StoreAfter(s.store, step))
  }

  const INITIAL := State(Store(map[], map[], [], map[], []), map[], map[])

  function Run(audience: string, steps: seq<Step>): State {
    if steps == [] then INITIAL else Next(Run(audience, steps[..|steps| - 1]), audience, steps[|steps| - 1])
  }

  // ---------------------------------------------------------------- nonces and tokens

  ghost predicate HasToken(tokens: seq<Token>, nonce: string) {
    exists i :: 0 <= i < |tokens| && tokens[i].nonce == nonce
  }

  /** A nonce is consumed exactly when it has its token, and it has no second one. */
  ghost predicate NoncesOk(nonces: map<string, Nonce>, tokens: seq<Token>) {
    && (forall n | n in nonces :: nonces[n].nonce == n && (nonces[n].consumedAt.Some? <==> HasToken(tokens, n)))
    && (forall i | 0 <= i < |tokens| :: tokens[i].nonce in nonces)
    && (forall i, j | 0 <= i < j < |tokens| :: tokens[i].nonce != tokens[j].nonce)
  }

  ghost predicate OneActive(cs: seq<Credential>) {
    forall i, j | 0 <= i < j < |cs| :: !(cs[i].status == Active && cs[j].status == Active && cs[i].agentUuid == cs[j].agentUuid)
  }

  ghost predicate ReadingsOk(calls: map<nat, Reading>) {
    forall n | n in calls :: calls[n].token.nonce == calls[n].answer.nonce && calls[n].token.credentialJti == calls[n].credentialJti
  }

  ghost predicate AskedOk(asked: map<nat, Nonce>) {
    forall n | n in asked :: asked[n].consumedAt.None?
  }

  ghost predicate Inv(s: State) {
    && NoncesOk(s.store.nonces, s.store.tokens) && OneActive(s.store.credentials) && ReadingsOk(s.calls)
    && AskedOk(s.asked)
  }

  lemma ConsumeKeepsNonces(nonces: map<string, Nonce>, tokens: seq<Token>, nonce: string, now: int, t: Token)
    requires NoncesOk(nonces, tokens) && nonce in nonces && nonces[nonce].consumedAt.None? && t.nonce == nonce
    ensures NoncesOk(nonces[nonce := nonces[nonce].(consumedAt := Some(now))], tokens + [t])
  {
    var next := nonces[nonce := nonces[nonce].(consumedAt := Some(now))];
    assert !HasToken(tokens, nonce);
    assert (tokens + [t])[|tokens|] == t;
    forall n | n in next
      ensures next[n].nonce == n && (next[n].consumedAt.Some? <==> HasToken(tokens + [t], n))
    {
      if HasToken(tokens, n) {
        var i :| 0 <= i < |tokens| && tokens[i].nonce == n;
        assert (tokens + [t])[i].nonce == n;
      }
    }
  }

  lemma CommitKeepsInv(s: State, audience: string, call: nat, now: int)
    requires Inv(s) && call in s.calls
    ensures Inv(Next(s, audience, CommitAnswer(call, now)))
  {
    var r := s.calls[call];
    if CommitFault(s.store, r, audience, now).None? {
      ConsumeKeepsNonces(s.store.nonces, s.store.tokens, r.answer.nonce, now, r.token);
    }
  }

  lemma StoreStepKeepsCredentials(st: Store, step: Step)
    requires OneActive(st.credentials)
    ensures OneActive(StoreAfter(st, step).credentials)
  {
  }

  lemma StoreStepKeepsNonces(st: Store, step: Step)
    ensures StoreAfter(st, step).nonces == st.nonces && StoreAfter(st, step).tokens == st.tokens
  {
  }

  lemma PushKeepsNonces(nonces: map<string, Nonce>, tokens: seq<Token>, n: Nonce)
    requires NoncesOk(nonces, tokens) && n.consumedAt.None? && n.nonce !in nonces
    ensures NoncesOk(nonces[n.nonce := n], tokens)
  {
    assert !HasToken(tokens, n.nonce);
  }

  lemma NextKeepsInv(s: State, audience: string, step: Step)
    requires Inv(s)
    ensures Inv(Next(s, audience, step))
  {
    if step.CommitAnswer? {
      if step.call in s.calls {
        CommitKeepsInv(s, audience, step.call, step.now);
      }
    } else if step.PushChallenge? {
      if step.call in s.asked && s.asked[step.call].nonce !in s.store.nonces {
        PushKeepsNonces(s.store.nonces, s.store.tokens, s.asked[step.call]);
      }
    } else if !step.ReadAnswer? && !step.AskChallenge? {
      StoreStepKeepsCredentials(s.store, step);
      StoreStepKeepsNonces(s.store, step);
    }
  }

  /** In every run each nonce yields at most one token, appended when it is consumed, and every agent has at most
      one active credential. */
  lemma {:induction false} EveryRunKeepsInv(audience: string, steps: seq<Step>)
    ensures Inv(Run(audience, steps))
  {
    if steps != [] {
      EveryRunKeepsInv(audience, steps[..|steps| - 1]);
      NextKeepsInv(Run(audience, steps[..|steps| - 1]), audience, steps[|steps| - 1]);
    }
  }

  // ---------------------------------------------------------------- what a token was checked against

  /** Everything the token, the enrollment, the principal and the credential agree on when it is appended. */
  ghost predicate WellFounded(st: Store, t: Token, now: int) {
    && t.agentUuid in st.enrollments
    && var e := st.enrollments[t.agentUuid];
    && e.status == Bound && e.principalId == Some(t.principalId) && e.thumbprint == t.jkt && e.keyThumbprint == Some(t.jkt)
    && t.principalId in st.principals
    && var p := st.principals[t.principalId];
    && CanAuthorize(p, now) && (e.owner.Some? ==> e.owner.value == p.ownerAddress)
    && exists i :: 0 <= i < |st.credentials|
         && var c := st.credentials[i];
         && c.jti == t.credentialJti && c.agentUuid == t.agentUuid && c.status == Active && now < c.expiresAt
         && c.principalId == t.principalId && c.thumbprint == t.jkt && c.owner == p.ownerAddress
         && c.registry == e.registry && c.agentId == e.agentId
  }

  /** The step that appends a token consumes its nonce, which was unconsumed and unexpired, and at that step
      enrollment, principal and credential still match the token, whatever happened since they were read. */
  lemma AppendedTokenIsWellFounded(s: State, audience: string, step: Step)
    requires Inv(s) && Next(s, audience, step).store.tokens != s.store.tokens
    ensures step.CommitAnswer?
    ensures var t := Next(s, audience, step).store;
            && |t.tokens| == |s.store.tokens| + 1 && t.tokens[..|s.store.tokens|] == s.store.tokens
            && var k := t.tokens[|s.store.tokens|];
            && k.nonce in s.store.nonces && s.store.nonces[k.nonce].consumedAt.None?
            && step.now < s.store.nonces[k.nonce].expiresAt && s.store.nonces[k.nonce].agentUuid == k.agentUuid
            && t.nonces == s.store.nonces[k.nonce := s.store.nonces[k.nonce].(consumedAt := Some(step.now))]
            && WellFounded(s.store, k, step.now)
  {
    var r := s.calls[step.call];
    var c := ByJti(s.store.credentials, r.credentialJti);
    assert c.value in s.store.credentials;
  }

  // ---------------------------------------------------------------- every token answers a signed challenge

  /** The fields of a challenge that the agent signs. */
  predicate SignedFields(n: Nonce, a: Answer) {
    n.agentUuid == a.agentUuid && n.audience == a.audience && n.intentHash == a.intentHash && n.timestamp == a.timestamp
  }

  /** What was on file when an answer was read and found good: the agent bound, its one active credential matching
      it, its principal with KYC, and an open challenge of its own. */
  ghost predicate Presentable(st: Store, a: Answer, audience: string, now: int) {
    && a.agentUuid in st.enrollments && st.enrollments[a.agentUuid].status == Bound
    && (exists i :: 0 <= i < |st.credentials| && GoodCredential(st, a.agentUuid, st.credentials[i], now))
    && a.nonce in st.nonces && SignedFields(st.nonces[a.nonce], a) && a.audience == audience
    && st.nonces[a.nonce].consumedAt.None? && now < st.nonces[a.nonce].expiresAt
  }

  /** An active credential of the agent that still says what the enrollment and the principal say. */
  predicate GoodCredential(st: Store, agent: string, c: Credential, now: int) {
    && agent in st.enrollments
    && var e := st.enrollments[agent];
    && c.agentUuid == agent && c.status == Active && now < c.expiresAt
    && e.principalId == Some(c.principalId) && c.principalId in st.principals
    && CanAuthorize(st.principals[c.principalId], now) && c.owner == st.principals[c.principalId].ownerAddress
    && (e.owner.Some? ==> e.owner.value == c.owner)
    && c.thumbprint == e.thumbprint && c.registry == e.registry && c.agentId == e.agentId
  }

  predicate OnChain(e: Enrollment) {
    e.agentId.Some? && e.registry.Some?
  }

  lemma ActiveIsFirst(cs: seq<Credential>, i: nat)
    requires OneActive(cs) && i < |cs| && cs[i].status == Active
    ensures ActiveOf(cs, cs[i].agentUuid) == Some(cs[i])
  {
    if i > 0 {
      assert !(cs[0].agentUuid == cs[i].agentUuid && cs[0].status == Active);
      assert OneActive(cs[1..]) by {
        assert forall k | 0 <= k < |cs| - 1 :: cs[1..][k] == cs[k + 1];
      }
      ActiveIsFirst(cs[1..], i - 1);
    }
  }

  /** An answer passes the checks before the lock section exactly when it is presentable and signed, and the chain
      confirms the owner of an agent that is on chain. */
  lemma ReadOkIff(st: Store, a: Answer, audience: string, now: int, sigOk: bool, ownerOk: bool)
    requires OneActive(st.credentials)
    ensures Read(st, a, audience, now, sigOk, ownerOk).Ok? <==>
              Presentable(st, a, audience, now) && sigOk && (OnChain(st.enrollments[a.agentUuid]) ==> ownerOk)
  {
    if Presentable(st, a, audience, now) {
      var i :| 0 <= i < |st.credentials| && GoodCredential(st, a.agentUuid, st.credentials[i], now);
      ActiveIsFirst(st.credentials, i);
    }
    if Read(st, a, audience, now, sigOk, ownerOk).Ok? {
      var c := ActiveOf(st.credentials, a.agentUuid).value;
      assert GoodCredential(st, a.agentUuid, c, now);
      var i :| 0 <= i < |st.credentials| && st.credentials[i] == c;
    }
  }

  /** What a good read remembers. */
  lemma ReadRemembers(st: Store, a: Answer, audience: string, now: int, sigOk: bool, ownerOk: bool)
    requires Read(st, a, audience, now, sigOk, ownerOk).Ok?
    ensures var r := Read(st, a, audience, now, sigOk, ownerOk).value;
            && r.answer == a && a.agentUuid in st.enrollments && r.enrollment == st.enrollments[a.agentUuid]
            && a.nonce in st.nonces && r.record == st.nonces[a.nonce]
            && r.token.agentUuid == a.agentUuid && r.token.nonce == a.nonce && r.token.jkt == r.enrollment.thumbprint
            && Some(r.token.principalId) == r.enrollment.principalId && r.token.credentialJti == r.credentialJti
            && (exists i :: 0 <= i < |st.credentials| && GoodCredential(st, a.agentUuid, st.credentials[i], now)
                            && st.credentials[i].jti == r.credentialJti && st.credentials[i].owner == r.expectedOwner)
  {
    var c := ActiveOf(st.credentials, a.agentUuid).value;
    var i :| 0 <= i < |st.credentials| && st.credentials[i] == c;
    assert GoodCredential(st, a.agentUuid, st.credentials[i], now);
  }

  /** The step reads a presentable, signed answer of this agent to this challenge, and the chain confirms the
      owner of an agent that is on chain. */
  ghost predicate SignedRead(st: Store, audience: string, step: Step, agent: string, nonce: string) {
    && step.ReadAnswer? && step.sigOk && step.answer.agentUuid == agent && step.answer.nonce == nonce
    && Presentable(st, step.answer, audience, step.now)
    && (OnChain(st.enrollments[agent]) ==> step.ownerOk)
  }

  /** Step `j` of the run is such a read. */
  ghost predicate SignedAt(audience: string, steps: seq<Step>, j: nat, agent: string, nonce: string) {
    j < |steps| && SignedRead(Run(audience, steps[..j]).store, audience, steps[j], agent, nonce)
  }

  ghost predicate Signed(audience: string, steps: seq<Step>, agent: string, nonce: string) {
    exists j: nat :: SignedAt(audience, steps, j, agent, nonce)
  }

  ghost predicate CallsSigned(audience: string, steps: seq<Step>, calls: map<nat, Reading>) {
    forall c | c in calls ::
      && calls[c].token.agentUuid == calls[c].answer.agentUuid && calls[c].token.nonce == calls[c].answer.nonce
      && Signed(audience, steps, calls[c].answer.agentUuid, calls[c].answer.nonce)
  }

  ghost predicate TokensSigned(audience: string, steps: seq<Step>, tokens: seq<Token>) {
    forall i | 0 <= i < |tokens| :: Signed(audience, steps, tokens[i].agentUuid, tokens[i].nonce)
  }

  ghost predicate AllSigned(audience: string, steps: seq<Step>) {
    && CallsSigned(audience, steps, Run(audience, steps).calls)
    && TokensSigned(audience, steps, Run(audience, steps).store.tokens)
  }

  lemma SignedStays(audience: string, steps: seq<Step>, last: Step, agent: string, nonce: string)
    requires Signed(audience, steps, agent, nonce)
    ensures Signed(audience, steps + [last], agent, nonce)
  {
    var j: nat :| SignedAt(audience, steps, j, agent, nonce);
    assert (steps + [last])[..j] == steps[..j] && (steps + [last])[j] == steps[j];
    assert SignedAt(audience, steps + [last], j, agent, nonce);
  }

  lemma ReadIsSigned(audience: string, steps: seq<Step>, last: Step)
    requires last.ReadAnswer? && OneActive(Run(audience, steps).store.credentials)
    requires Read(Run(audience, steps).store, last.answer, audience, last.now, last.sigOk, last.ownerOk).Ok?
    ensures Signed(audience, steps + [last], last.answer.agentUuid, last.answer.nonce)
  {
    ReadOkIff(Run(audience, steps).store, last.answer, audience, last.now, last.sigOk, last.ownerOk);
    assert (steps + [last])[..|steps|] == steps;
    assert SignedAt(audience, steps + [last], |steps|, last.answer.agentUuid, last.answer.nonce);
  }

  /** Where the tokens and the calls of the next state come from. */
  lemma TokensAndCallsComeFrom(s: State, audience: string, step: Step)
    ensures var t := Next(s, audience, step);
            && (forall i | 0 <= i < |t.store.tokens| ::
                  (i < |s.store.tokens| && t.store.tokens[i] == s.store.tokens[i])
                  || (step.CommitAnswer? && step.call in s.calls && t.store.tokens[i] == s.calls[step.call].token))
            && (forall c | c in t.calls ::
                  (c in s.calls && t.calls[c] == s.calls[c])
                  || (step.ReadAnswer? && Read(s.store, step.answer, audience, step.now, step.sigOk, step.ownerOk) == Ok(t.calls[c])))
  {
  }

  lemma StepKeepsSigned(audience: string, steps: seq<Step>, last: Step)
    requires AllSigned(audience, steps) && OneActive(Run(audience, steps).store.credentials)
    ensures AllSigned(audience, steps + [last])
  {
    var s, all := Run(audience, steps), steps + [last];
    assert all[..|all| - 1] == steps;
    var t := Run(audience, all);
    TokensAndCallsComeFrom(s, audience, last);
    forall c | c in t.calls
      ensures Signed(audience, all, t.calls[c].answer.agentUuid, t.calls[c].answer.nonce)
      ensures t.calls[c].token.agentUuid == t.calls[c].answer.agentUuid && t.calls[c].token.nonce == t.calls[c].answer.nonce
    {
      if c in s.calls && t.calls[c] == s.calls[c] {
        SignedStays(audience, steps, last, s.calls[c].answer.agentUuid, s.calls[c].answer.nonce);
      } else {
        ReadRemembers(s.store, last.answer, audience, last.now, last.sigOk, last.ownerOk);
        ReadIsSigned(audience, steps, last);
      }
    }
    forall i | 0 <= i < |t.store.tokens|
      ensures Signed(audience, all, t.store.tokens[i].agentUuid, t.store.tokens[i].nonce)
    {
      var k := t.store.tokens[i];
      SignedStays(audience, steps, last, k.agentUuid, k.nonce);
    }
  }

  lemma {:induction false} EveryRunIsSigned(audience: string, steps: seq<Step>)
    ensures AllSigned(audience, steps)
  {
    if steps != [] {
      var init, last := steps[..|steps| - 1], steps[|steps| - 1];
      EveryRunIsSigned(audience, init);
      EveryRunKeepsInv(audience, init);
      StepKeepsSigned(audience, init, last);
      assert init + [last] == steps;
    }
  }

  /** In every run, every access token answers a challenge: some step read the agent's answer to the token's nonce,
      with the audience, intent and timestamp of the stored challenge, found its signature good, and had the owner
      confirmed on chain. */
  lemma TokenWasSigned(audience: string, steps: seq<Step>, i: nat)
    requires i < |Run(audience, steps).store.tokens|
    ensures var t := Run(audience, steps).store.tokens[i];
            exists j: nat :: SignedAt(audience, steps, j, t.agentUuid, t.nonce)
  {
    EveryRunIsSigned(audience, steps);
    var t := Run(audience, steps).store.tokens[i];
    assert Signed(audience, steps, t.agentUuid, t.nonce);
  }

  ghost predicate DistinctJtis(cs: seq<Credential>) {
    forall i, j | 0 <= i < j < |cs| :: cs[i].jti != cs[j].jti
  }

  lemma StoreStepKeepsJtis(st: Store, step: Step)
    requires DistinctJtis(st.credentials)
    ensures DistinctJtis(StoreAfter(st, step).credentials)
  {
    var t := StoreAfter(st, step).credentials;
    forall i, j | 0 <= i < j < |t|
      ensures t[i].jti != t[j].jti
    {
      CredentialsOnlyDeactivate(st, step, i);
      if j < |st.credentials| {
        CredentialsOnlyDeactivate(st, step, j);
      }
    }
  }

  lemma {:induction false} EveryRunKeepsJtis(audience: string, steps: seq<Step>)
    ensures DistinctJtis(Run(audience, steps).store.credentials)
  {
    if steps != [] {
      EveryRunKeepsJtis(audience, steps[..|steps| - 1]);
      StoreStepKeepsJtis(Run(audience, steps[..|steps| - 1]).store, steps[|steps| - 1]);
    }
  }

  lemma {:induction false} ByJtiFinds(cs: seq<Credential>, i: nat)
    requires DistinctJtis(cs) && i < |cs|
    ensures ByJti(cs, cs[i].jti) == Some(cs[i])
  {
    if i > 0 {
      assert cs[0].jti != cs[i].jti;
      assert DistinctJtis(cs[1..]) by {
        assert forall k | 0 <= k < |cs| - 1 :: cs[1..][k] == cs[k + 1];
      }
      ByJtiFinds(cs[1..], i - 1);
    }
  }

  /** The lock section accepts a fresh reading when nothing has run out since and the key on file is the one the
      enrollment names. */
  lemma FreshReadingCommits(
    st: Store, a: Answer, audience: string, now: int, ownerOk: bool, later: int)
    requires OneActive(st.credentials) && DistinctJtis(st.credentials)
    requires Presentable(st, a, audience, now) && Presentable(st, a, audience, later)
    requires OnChain(st.enrollments[a.agentUuid]) ==> ownerOk
    requires var e := st.enrollments[a.agentUuid]; e.keyThumbprint == Some(e.thumbprint)
    ensures Read(st, a, audience, now, true, ownerOk).Ok?
    ensures CommitFault(st, Read(st, a, audience, now, true, ownerOk).value, audience, later).None?
  {
    ReadOkIff(st, a, audience, now, true, ownerOk);
    ReadRemembers(st, a, audience, now, true, ownerOk);
    var r := Read(st, a, audience, now, true, ownerOk).value;
    var i :| 0 <= i < |st.credentials| && GoodCredential(st, a.agentUuid, st.credentials[i], later);
    var k :| 0 <= k < |st.credentials| && GoodCredential(st, a.agentUuid, st.credentials[k], now)
             && st.credentials[k].jti == r.credentialJti && st.credentials[k].owner == r.expectedOwner;
    ActiveIsFirst(st.credentials, i);
    ActiveIsFirst(st.credentials, k);
    ByJtiFinds(st.credentials, k);
  }

  /** And the converse: a presentable, signed answer that is not disturbed gets its token, in the step that
      consumes its challenge. */
  lemma SignedAnswerGetsItsToken(audience: string, steps: seq<Step>, call: nat, a: Answer, now: int, ownerOk: bool, later: int)
    requires var s := Run(audience, steps);
             && call !in s.calls && Presentable(s.store, a, audience, now) && Presentable(s.store, a, audience, later)
             && (OnChain(s.store.enrollments[a.agentUuid]) ==> ownerOk)
             && s.store.enrollments[a.agentUuid].keyThumbprint == Some(s.store.enrollments[a.agentUuid].thumbprint)
    ensures var s := Run(audience, steps);
            var t := Next(Next(s, audience, ReadAnswer(call, a, now, true, ownerOk)), audience, CommitAnswer(call, later));
            && |t.store.tokens| == |s.store.tokens| + 1 && t.store.tokens[..|s.store.tokens|] == s.store.tokens
            && var k := t.store.tokens[|s.store.tokens|];
            && k.agentUuid == a.agentUuid && k.nonce == a.nonce
            && t.store.nonces == s.store.nonces[a.nonce := s.store.nonces[a.nonce].(consumedAt := Some(later))]
            && WellFounded(s.store, k, later)
  {
    var s := Run(audience, steps);
    EveryRunKeepsInv(audience, steps);
    EveryRunKeepsJtis(audience, steps);
    FreshReadingCommits(s.store, a, audience, now, ownerOk, later);
    ReadRemembers(s.store, a, audience, now, true, ownerOk);
    var s1 := Next(s, audience, ReadAnswer(call, a, now, true, ownerOk));
    assert s1.store == s.store && call in s1.calls;
    NextKeepsInv(s, audience, ReadAnswer(call, a, now, true, ownerOk));
    AppendedTokenIsWellFounded(s1, audience, CommitAnswer(call, later));
  }

  // ---------------------------------------------------------------- revocation reaches calls in flight

  ghost predicate Inactive(cs: seq<Credential>, jti: string) {
    && (exists i :: 0 <= i < |cs| && cs[i].jti == jti)
    && (forall i | 0 <= i < |cs| && cs[i].jti == jti :: cs[i].status != Active)
  }

  lemma CredentialsOnlyDeactivate(st: Store, step: Step, i: nat)
    requires i < |st.credentials|
    ensures i < |StoreAfter(st, step).credentials|
    ensures StoreAfter(st, step).credentials[i].jti == st.credentials[i].jti
    ensures StoreAfter(st, step).credentials[i].status == Active ==> st.credentials[i].status == Active
    ensures forall k | |st.credentials| <= k < |StoreAfter(st, step).credentials| ::
              ByJti(st.credentials, StoreAfter(st, step).credentials[k].jti).None?
  {
  }

  lemma InactiveStays(st: Store, step: Step, jti: string)
    requires Inactive(st.credentials, jti)
    ensures Inactive(StoreAfter(st, step).credentials, jti)
  {
    var cs, t := st.credentials, StoreAfter(st, step).credentials;
    var i :| 0 <= i < |cs| && cs[i].jti == jti;
    CredentialsOnlyDeactivate(st, step, i);
    assert ByJti(cs, jti).Some?;
    forall k | 0 <= k < |t| && t[k].jti == jti
      ensures t[k].status != Active
    {
      if k < |cs| {
        CredentialsOnlyDeactivate(st, step, k);
      }
    }
  }

  /** `b` extends `a`, by tokens of other credentials. */
  ghost predicate NoNewToken(a: seq<Token>, b: seq<Token>, jti: string) {
    a <= b && forall i | |a| <= i < |b| :: b[i].credentialJti != jti
  }

  lemma NoTokenFromInactive(s: State, audience: string, step: Step, jti: string)
    requires Inv(s) && Inactive(s.store.credentials, jti)
    ensures NoNewToken(s.store.tokens, Next(s, audience, step).store.tokens, jti)
    ensures Inactive(Next(s, audience, step).store.credentials, jti)
  {
    if Next(s, audience, step).store.tokens != s.store.tokens {
      AppendedTokenIsWellFounded(s, audience, step);
    }
    if !step.ReadAnswer? && !step.CommitAnswer? && !step.AskChallenge? && !step.PushChallenge? {
      InactiveStays(s.store, step, jti);
    }
  }

  lemma RunExtends(audience: string, steps: seq<Step>, more: seq<Step>)
    requires more != []
    ensures Run(audience, steps + more) == Next(Run(audience, steps + more[..|more| - 1]), audience, more[|more| - 1])
  {
    assert (steps + more)[..|steps + more| - 1] == steps + more[..|more| - 1];
  }

  /** Once a credential is not active, no call ever appends a token for it again, not even one that had read it
      while it was active. */
  lemma {:induction false} RevocationReachesCallsInFlight(audience: string, steps: seq<Step>, more: seq<Step>, jti: string)
    requires Inactive(Run(audience, steps).store.credentials, jti)
    ensures Inactive(Run(audience, steps + more).store.credentials, jti)
    ensures NoNewToken(Run(audience, steps).store.tokens, Run(audience, steps + more).store.tokens, jti)
  {
    if more == [] {
      assert steps + more == steps;
    } else {
      var init := more[..|more| - 1];
      RevocationReachesCallsInFlight(audience, steps, init, jti);
      EveryRunKeepsInv(audience, steps + init);
      RunExtends(audience, steps, more);
      NoTokenFromInactive(Run(audience, steps + init), audience, more[|more| - 1], jti);
    }
  }

  /** Rotation, revocation and rebinding leave an agent without an active credential, and rebinding and revocation
      without one that could become active again. */
  lemma RotationDeactivates(st: Store, agent: string, owner: Address, thumbprint: string, principalId: string, i: nat)
    requires i < |st.credentials| && st.credentials[i].agentUuid == agent
    ensures MayRotate(st, agent, owner) ==> Rotated(st, agent, owner, thumbprint).credentials[i].status != Active
    ensures OwnedBy(st, agent, owner) ==> AgentRevoked(st, agent, owner).credentials[i].status == Revoked
    ensures agent in st.enrollments && st.enrollments[agent].status == SuspendedEnrollment
            ==> Rebound(st, agent, principalId, owner).credentials[i].status == Revoked
  {
  }
}
