/** What comes between the answers to a challenge (src/services/ceremony.ts:928-960, 1164-1300 and
    src/credentials/jws.ts:70-131): asking for one, issuing and suspending credentials, rotating a key, revoking an agent
    and rebinding it to a new owner, and what each of them leaves alone. */
module CeremonyLifecycle {
  import opened Outcomes
  import opened ChallengeCeremony

  /** The agent is on file, and this wallet is that of its principal. */
  predicate Owns(st: Store, agent: string, wallet: Address) {
    && agent in st.enrollments
    && var id := st.enrollments[agent].principalId;
    && id.Some? && id.value in st.principals && st.principals[id.value].ownerAddress == wallet
  }

  /** Exactly the credentials of this agent with one of these statuses have become revoked. */
  ghost predicate Revokes(st: Store, t: Store, agent: string, from: set<CredentialStatus>) {
    && |t.credentials| == |st.credentials|
    && (forall i | 0 <= i < |t.credentials| && st.credentials[i].agentUuid == agent && st.credentials[i].status in from ::
          t.credentials[i] == st.credentials[i].(status := Revoked))
    && (forall i | 0 <= i < |t.credentials| && !(st.credentials[i].agentUuid == agent && st.credentials[i].status in from) ::
          t.credentials[i] == st.credentials[i])
  }

  /** Nothing but this enrollment and the credentials are touched. */
  predicate OnlyAgent(st: Store, t: Store, agent: string) {
    && t.principals == st.principals && t.nonces == st.nonces && t.tokens == st.tokens
    && agent in st.enrollments && agent in t.enrollments && t.enrollments - {agent} == st.enrollments - {agent}
  }

  /** The owner of an agent that is on chain rotates its key: the agent keeps its place on chain and its owner, has the
      new key, waits for a new fingerprint, and loses its live credentials. Anybody else changes nothing. */
  lemma RotationLeaves(st: Store, agent: string, wallet: Address, thumbprint: string)
    ensures var t := Rotated(st, agent, wallet, thumbprint);
            if Owns(st, agent, wallet) && st.enrollments[agent].agentId.Some? && st.enrollments[agent].registry.Some? then
              var was, now := st.enrollments[agent], t.enrollments[agent];
              && OnlyAgent(st, t, agent) && Revokes(st, t, agent, {Active, Suspended})
              && now.thumbprint == thumbprint && now.keyThumbprint == Some(thumbprint) && now.status == AwaitingFingerprint
              && (now.principalId, now.registry, now.agentId, now.owner) == (was.principalId, was.registry, was.agentId, was.owner)
            else t == st
  {
  }

  /** The owner of an agent revokes it, with all its credentials. */
  lemma RevocationLeaves(st: Store, agent: string, wallet: Address)
    ensures var t := AgentRevoked(st, agent, wallet);
            if Owns(st, agent, wallet) then
              && OnlyAgent(st, t, agent) && Revokes(st, t, agent, {Active, Suspended, Expired})
              && t.enrollments[agent] == st.enrollments[agent].(status := RevokedEnrollment)
            else t == st
  {
  }

  /** A suspended agent is rebound to a new principal and its wallet, waits for a new fingerprint, and loses all its
      credentials. */
  lemma RebindingLeaves(st: Store, agent: string, principalId: string, wallet: Address)
    ensures var t := Rebound(st, agent, principalId, wallet);
            if agent in st.enrollments && st.enrollments[agent].status == SuspendedEnrollment then
              var was, now := st.enrollments[agent], t.enrollments[agent];
              && OnlyAgent(st, t, agent) && Revokes(st, t, agent, {Active, Suspended, Expired})
              && now.principalId == Some(principalId) && now.owner == Some(wallet) && now.status == AwaitingFingerprint
              && (now.thumbprint, now.keyThumbprint, now.registry, now.agentId)
                 == (was.thumbprint, was.keyThumbprint, was.registry, was.agentId)
            else t == st
  {
  }

  // ---------------------------------------------------------------- credentials

  /** A new active credential becomes the last one, and the only active one of its agent. */
  lemma IssuedIsTheActiveOne(st: Store, c: Credential)
    requires c.status == Active && forall i | 0 <= i < |st.credentials| :: st.credentials[i].jti != c.jti
    ensures var t := StoreAfter(st, IssueStep(c));
            && t == st.(credentials := t.credentials) && |t.credentials| == |st.credentials| + 1
            && t.credentials[|st.credentials|] == c
            && Revokes(st, t.(credentials := t.credentials[..|st.credentials|]), c.agentUuid, {Active})
            && ActiveOf(t.credentials, c.agentUuid) == Some(c)
  {
    var r := Revoke(st.credentials, c.agentUuid, {Active});
    OnlyLastIsActive(r, c);
    assert (r + [c])[..|r|] == r;
  }

  lemma {:induction false} OnlyLastIsActive(cs: seq<Credential>, c: Credential)
    requires c.status == Active && forall i | 0 <= i < |cs| && cs[i].agentUuid == c.agentUuid :: cs[i].status != Active
    ensures ActiveOf(cs + [c], c.agentUuid) == Some(c)
  {
    if cs != [] {
      assert forall i | 0 <= i < |cs| - 1 :: cs[1..][i] == cs[i + 1];
      OnlyLastIsActive(cs[1..], c);
      assert (cs + [c])[1..] == cs[1..] + [c];
    }
  }

  /** Suspending a credential changes the status of the first one with its id, and nothing else. */
  lemma {:induction false} SuspendsFirst(cs: seq<Credential>, jti: string, k: nat)
    requires k < |cs| && cs[k].jti == jti && forall i | 0 <= i < k :: cs[i].jti != jti
    ensures SetStatus(cs, jti, Suspended) == cs[k := cs[k].(status := Suspended)]
  {
    if k > 0 {
      assert forall i | 0 <= i < |cs| - 1 :: cs[1..][i] == cs[i + 1];
      SuspendsFirst(cs[1..], jti, k - 1);
      assert cs == [cs[0]] + cs[1..];
    }
  }

  // ---------------------------------------------------------------- asking for a challenge

  /** A bound agent that asks gets its challenge stored under its nonce, open to be answered. */
  lemma ChallengeIsStored(s: State, audience: string, call: nat, n: Nonce)
    requires call !in s.asked && n.consumedAt.None? && n.nonce !in s.store.nonces
    requires n.agentUuid in s.store.enrollments && s.store.enrollments[n.agentUuid].status == Bound
    ensures Next(Next(s, audience, AskChallenge(call, n)), audience, PushChallenge(call))
            == s.(store := s.store.(nonces := s.store.nonces[n.nonce := n]))
  {
    assert s.asked[call := n] - {call} == s.asked;
  }

  /** One that is not bound gets none. */
  lemma UnboundGetsNoChallenge(s: State, audience: string, call: nat, n: Nonce)
    requires n.agentUuid !in s.store.enrollments || s.store.enrollments[n.agentUuid].status != Bound
    ensures Next(s, audience, AskChallenge(call, n)) == s
  {
  }

  /** Beside these, an enrollment and a principal may become anything. */
  lemma OthersAreFree(s: State, audience: string, agent: string, e: Enrollment, principalId: string, p: Principal)
    ensures Next(s, audience, Enroll(agent, e)) == s.(store := s.store.(enrollments := s.store.enrollments[agent := e]))
    ensures Next(s, audience, SetPrincipal(principalId, p))
            == s.(store := s.store.(principals := s.store.principals[principalId := p]))
    ensures Next(s, audience, RebindStep(agent, principalId, p.ownerAddress))
            == s.(store := Rebound(s.store, agent, principalId, p.ownerAddress))
  {
  }
}
