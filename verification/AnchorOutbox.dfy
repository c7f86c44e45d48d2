/** The hash-only anchor outbox of src/mandates/anchor-outbox.ts: jobs that workers lease, and that must be
    anchored a bounded number of times even when workers crash. */
module AnchorOutbox {
  import opened Outcomes

  datatype Evidence = Evidence(
    closedCheckoutHash: string, closedPaymentHash: string, checkoutHash: string, transactionIdHash: string,
    agentIdHash: string, policyVersionHash: string, mandateType: int)

  datatype Status = Pending | Processing | Anchored | Failed

  /** A job is identified by its position; ids are handed out in order. A claim token is a fresh number. */
  datatype Job = Job(
    evidence: Evidence, attempts: nat, status: Status, claimToken: Option<nat>, leaseUntil: Option<int>,
    txHash: Option<string>, lastError: Option<string>)

  datatype OutboxError = AnchorEvidence | AnchorEvidenceConflict | AnchorNotFound | AnchorTxHash

  // ---------------------------------------------------------------- evidence

  predicate HexDigit(c: char) {
    '0' <= c <= '9' || 'a' <= c <= 'f' || 'A' <= c <= 'F'
  }

  predicate Base64Url(c: char) {
    'A' <= c <= 'Z' || 'a' <= c <= 'z' || '0' <= c <= '9' || c == '-' || c == '_'
  }

  predicate Bytes32Hex(s: string) {
    |s| == 66 && s[0] == '0' && s[1] == 'x' && forall i | 2 <= i < 66 :: HexDigit(s[i])
  }

  /** 43 characters carry 258 bits for 32 bytes, so a canonical last character ends in two zero bits. */
  predicate CanonicalBase64Url(s: string) {
    |s| == 43 && (forall i | 0 <= i < 43 :: Base64Url(s[i])) && s[42] in "AEIMQUYcgkosw048"
  }

  predicate StrictEvidenceHash(s: string) {
    if Bytes32Hex(s) then exists i :: 2 <= i < 66 && s[i] != '0'
    else CanonicalBase64Url(s) && exists i :: 0 <= i < 43 && s[i] != 'A'
  }

  predicate HashOnly(e: Evidence) {
    && StrictEvidenceHash(e.closedCheckoutHash) && StrictEvidenceHash(e.closedPaymentHash)
    && StrictEvidenceHash(e.checkoutHash) && StrictEvidenceHash(e.transactionIdHash)
    && StrictEvidenceHash(e.agentIdHash) && StrictEvidenceHash(e.policyVersionHash)
    && 0 <= e.mandateType <= 255
  }

  function EvidenceKey(e: Evidence): string {
    e.closedCheckoutHash + [':'] + e.closedPaymentHash
  }

  lemma NoColon(s: string, i: nat)
    requires StrictEvidenceHash(s) && i < |s|
    ensures s[i] != ':'
  {
  }

  /** The key determines both closed hashes, because no hash contains the separator. */
  lemma KeyIsInjective(a: Evidence, b: Evidence)
    requires HashOnly(a) && HashOnly(b) && EvidenceKey(a) == EvidenceKey(b)
    ensures a.closedCheckoutHash == b.closedCheckoutHash && a.closedPaymentHash == b.closedPaymentHash
  {
    var x, y, key := a.closedCheckoutHash, b.closedCheckoutHash, EvidenceKey(a);
    assert key[|x|] == ':' && key[|y|] == ':';
    if |x| < |y| {
      NoColon(y, |x|);
    } else if |y| < |x| {
      NoColon(x, |y|);
    }
    assert key[..|x|] == x && key[..|y|] == y;
    assert key[|x| + 1..] == a.closedPaymentHash && key[|y| + 1..] == b.closedPaymentHash;
  }

  // ---------------------------------------------------------------- one operation at a time

  datatype Config = Config(leaseMs: int, maxAttempts: nat)

  predicate Claimable(j: Job, now: int) {
    || j.status == Pending
    || (j.status == Processing && (j.leaseUntil.None? || j.leaseUntil.value <= now))
  }

  function Exhausted(j: Job): Job {
    j.(attempts := j.attempts + 1, status := Failed, claimToken := None, leaseUntil := None,
       lastError := Some("max attempts exceeded"))
  }

  function Leased(j: Job, now: int, token: nat, cfg: Config): Job {
    j.(attempts := j.attempts + 1, status := Processing, claimToken := Some(token),
       leaseUntil := Some(now + cfg.leaseMs))
  }

  /** The position of the first job that can still be leased, or the number of jobs. */
  function FirstLeasable(jobs: seq<Job>, now: int, cfg: Config): (k: nat)
    ensures k <= |jobs|
    ensures forall i | 0 <= i < k :: Claimable(jobs[i], now) ==> jobs[i].attempts >= cfg.maxAttempts
    ensures k < |jobs| ==> Claimable(jobs[k], now) && jobs[k].attempts < cfg.maxAttempts
  {
    if jobs == [] then 0
    else if Claimable(jobs[0], now) && jobs[0].attempts < cfg.maxAttempts then 0
    else 1 + FirstLeasable(jobs[1..], now, cfg)
  }

  /** Claimable jobs before the leased one are out of attempts and fail; the leased one gets the token. */
  function AfterClaim(jobs: seq<Job>, now: int, token: nat, cfg: Config): (next: seq<Job>)
    ensures |next| == |jobs|
  {
    var k := FirstLeasable(jobs, now, cfg);
    seq(|jobs|, i requires 0 <= i < |jobs| =>
      if i < k && Claimable(jobs[i], now) then Exhausted(jobs[i])
      else if i == k then Leased(jobs[i], now, token, cfg)
      else jobs[i])
  }

  predicate TxHash(s: string) {
    Bytes32Hex(s)
  }

  predicate Holds(jobs: seq<Job>, i: nat, token: nat) {
    i < |jobs| && jobs[i].status == Processing && jobs[i].claimToken == Some(token)
  }

  function AfterAnchored(jobs: seq<Job>, i: nat, txHash: string, token: nat): seq<Job> {
    if TxHash(txHash) && Holds(jobs, i, token) then
      jobs[i := jobs[i].(status := Anchored, txHash := Some(txHash), leaseUntil := None, claimToken := None,
                         lastError := None)]
    else jobs
  }

  function AfterFailed(jobs: seq<Job>, i: nat, error: string, token: nat, cfg: Config): seq<Job> {
    if Holds(jobs, i, token) then
      jobs[i := jobs[i].(status := if jobs[i].attempts >= cfg.maxAttempts then Failed else Pending,
                         leaseUntil := None, claimToken := None, lastError := Some(error))]
    else jobs
  }

  function NewJob(e: Evidence): Job {
    Job(e, 0, Pending, None, None, None, None)
  }

  predicate FiledAs(e: Evidence, byEvidence: map<string, nat>, i: nat) {
    HashOnly(e) && EvidenceKey(e) in byEvidence && byEvidence[EvidenceKey(e)] == i
  }

  /** The job index: each key leads to the job with that key, and each job is found under its key. */
  ghost predicate IndexInv(jobs: seq<Job>, byEvidence: map<string, nat>) {
    && (forall i | 0 <= i < |jobs| :: FiledAs(jobs[i].evidence, byEvidence, i))
    && (forall k | k in byEvidence :: byEvidence[k] < |jobs| && EvidenceKey(jobs[byEvidence[k]].evidence) == k)
  }

  /** At most one job for each pair of closed hashes. */
  lemma OneJobPerClosedPair(jobs: seq<Job>, byEvidence: map<string, nat>, i: nat, j: nat)
    requires IndexInv(jobs, byEvidence) && i < |jobs| && j < |jobs|
    ensures (jobs[i].evidence.closedCheckoutHash == jobs[j].evidence.closedCheckoutHash
             && jobs[i].evidence.closedPaymentHash == jobs[j].evidence.closedPaymentHash) <==> i == j
  {
    assert FiledAs(jobs[i].evidence, byEvidence, i) && FiledAs(jobs[j].evidence, byEvidence, j);
    if i != j {
      assert EvidenceKey(jobs[i].evidence) != EvidenceKey(jobs[j].evidence);
    }
  }

  lemma FilingKept(e: Evidence, byEvidence: map<string, nat>, i: nat, key: string, n: nat)
    requires FiledAs(e, byEvidence, i) && key !in byEvidence
    ensures FiledAs(e, byEvidence[key := n], i)
  {
  }

  lemma IndexGrows(jobs: seq<Job>, byEvidence: map<string, nat>, e: Evidence, key: string)
    requires IndexInv(jobs, byEvidence) && HashOnly(e) && key == EvidenceKey(e) && key !in byEvidence
    ensures IndexInv(jobs + [NewJob(e)], byEvidence[key := |jobs|])
  {
    var next, index := jobs + [NewJob(e)], byEvidence[key := |jobs|];
    forall i | 0 <= i < |next|
      ensures FiledAs(next[i].evidence, index, i)
    {
      if i < |jobs| {
        FilingKept(jobs[i].evidence, byEvidence, i, key, |jobs|);
      }
    }
    forall k | k in index
      ensures index[k] < |next| && EvidenceKey(next[index[k]].evidence) == k
    {
    }
  }

  class InMemoryMandateAnchorOutbox {
    var jobs: seq<Job>
    var byEvidence: map<string, nat>
    const cfg: Config

    constructor (leaseMs: int, maxAttempts: nat)
      requires leaseMs > 0 && maxAttempts > 0
      ensures cfg == Config(leaseMs, maxAttempts) && jobs == [] && byEvidence == map[]
    {
      cfg := Config(leaseMs, maxAttempts);
      jobs, byEvidence := [], map[];
    }

    method Enqueue(e: Evidence) returns (r: Result<nat, OutboxError>)
      requires IndexInv(jobs, byEvidence)
      modifies this
      ensures IndexInv(jobs, byEvidence)
      ensures !HashOnly(e) <==> r == Err(AnchorEvidence)
      ensures r.Err? ==> jobs == old(jobs) && byEvidence == old(byEvidence)
      ensures HashOnly(e) && EvidenceKey(e) !in old(byEvidence) ==>
                r == Ok(|old(jobs)|) && jobs == old(jobs) + [NewJob(e)]
      ensures HashOnly(e) && EvidenceKey(e) in old(byEvidence) ==>
                && jobs == old(jobs) && byEvidence == old(byEvidence)
                && (r.Ok? <==> jobs[byEvidence[EvidenceKey(e)]].evidence == e)
                && (r.Ok? ==> r.value == byEvidence[EvidenceKey(e)])
    {
      if !HashOnly(e) {
        return Err(AnchorEvidence);
      }
      var key := EvidenceKey(e);
      if key in byEvidence {
        r := Existing(e, byEvidence[key]);
      } else {
        var id := Append(e, key);
        r := Ok(id);
      }
    }

    method Existing(e: Evidence, i: nat) returns (r: Result<nat, OutboxError>)
      requires i < |jobs|
      ensures r == if jobs[i].evidence == e then Ok(i) else Err(AnchorEvidenceConflict)
    {
      if jobs[i].evidence != e {
        return Err(AnchorEvidenceConflict);
      }
      return Ok(i);
    }

    method Append(e: Evidence, key: string) returns (id: nat)
      requires IndexInv(jobs, byEvidence) && HashOnly(e) && key == EvidenceKey(e) && key !in byEvidence
      modifies this
      ensures IndexInv(jobs, byEvidence)
      ensures id == |old(jobs)| && jobs == old(jobs) + [NewJob(e)]
    {
      IndexGrows(jobs, byEvidence, e, key);
      id := |jobs|;
      jobs := jobs + [NewJob(e)];
      byEvidence := byEvidence[key := id];
    }

    /** One lock section; `token` is the random claim token. */
    method ClaimNext(now: int, token: nat) returns (claimed: Option<nat>)
      modifies this`jobs
      ensures jobs == AfterClaim(old(jobs), now, token, cfg)
      ensures claimed == var k := FirstLeasable(old(jobs), now, cfg); if k < |old(jobs)| then Some(k) else None
    {
      ghost var was := jobs;
      ghost var first := FirstLeasable(was, now, cfg);
      var i := 0;
      while i < |jobs|
        invariant 0 <= i <= first && |jobs| == |was|
        invariant forall m | i <= m < |was| :: jobs[m] == was[m]
        invariant forall m | 0 <= m < i :: jobs[m] == if Claimable(was[m], now) then Exhausted(was[m]) else was[m]
      {
        var job := jobs[i];
        if Claimable(job, now) {
          if job.attempts + 1 > cfg.maxAttempts {
            jobs := jobs[i := Exhausted(job)];
          } else {
            jobs := jobs[i := Leased(job, now, token, cfg)];
            assert i == first;
            assert jobs == AfterClaim(was, now, token, cfg);
            return Some(i);
          }
        }
        i := i + 1;
      }
      assert jobs == AfterClaim(was, now, token, cfg);
      return None;
    }

    method MarkAnchored(i: nat, txHash: string, token: nat) returns (r: Result<Job, OutboxError>)
      modifies this`jobs
      ensures jobs == AfterAnchored(old(jobs), i, txHash, token)
      ensures !TxHash(txHash) <==> r == Err(AnchorTxHash)
      ensures TxHash(txHash) ==> r == if i < |jobs| then Ok(jobs[i]) else Err(AnchorNotFound)
    {
      if !TxHash(txHash) {
        return Err(AnchorTxHash);
      }
      if i >= |jobs| {
        return Err(AnchorNotFound);
      }
      var job := jobs[i];
      if job.status == Anchored {
        return Ok(job);
      }
      if job.claimToken != Some(token) || job.status != Processing {
        return Ok(job);
      }
      job := job.(status := Anchored, txHash := Some(txHash));
      job := job.(leaseUntil := None, claimToken := None, lastError := None);
      jobs := jobs[i := job];
      return Ok(job);
    }

    method MarkFailed(i: nat, error: string, token: nat) returns (r: Result<Job, OutboxError>)
      modifies this`jobs
      ensures jobs == AfterFailed(old(jobs), i, error, token, cfg)
      ensures r == if i < |jobs| then Ok(jobs[i]) else Err(AnchorNotFound)
    {
      if i >= |jobs| {
        return Err(AnchorNotFound);
      }
      var job := jobs[i];
      if job.status == Anchored || job.status == Failed {
        return Ok(job);
      }
      if job.claimToken != Some(token) || job.status != Processing {
        return Ok(job);
      }
      job := job.(lastError := Some(error), claimToken := None, leaseUntil := None);
      if job.attempts >= cfg.maxAttempts {
        job := job.(status := Failed);
      } else {
        job := job.(status := Pending);
      }
      jobs := jobs[i := job];
      return Ok(job);
    }
  }

  // ---------------------------------------------------------------- runs with crashing workers

  /** A claim that was handed to a worker; the worker then makes one anchor call, or crashes. */
  datatype Claim = Claim(job: nat, token: nat, at: int, until: int)

  /** `ended` holds the tokens whose worker reported an outcome that was applied, `clock` the time of the latest
      claim. */
  datatype State = State(
    jobs: seq<Job>, byEvidence: map<string, nat>, claims: seq<Claim>, ended: set<nat>, clock: int)

  datatype Step =
    | EnqueueStep(evidence: Evidence)
    | ClaimStep(now: int, token: nat)
    | AnchoredStep(job: nat, txHash: string, token: nat)
    | FailedStep(job: nat, error: string, token: nat)

  predicate TokenUsed(claims: seq<Claim>, token: nat) {
    exists a :: 0 <= a < |claims| && claims[a].token == token
  }

  /** Claim tokens are fresh. A claim may carry any time, earlier than that of a previous claim included, and a
      report any token at any time. */
  predicate Enabled(st: State, step: Step) {
    step.ClaimStep? ==> !TokenUsed(st.claims, step.token)
  }

  function Next(st: State, step: Step, cfg: Config): State {
    match step
    case EnqueueStep(e) =>
      if HashOnly(e) && EvidenceKey(e) !in st.byEvidence
      then st.(jobs := st.jobs + [NewJob(e)], byEvidence := st.byEvidence[EvidenceKey(e) := |st.jobs|])
      else st
    case ClaimStep(now, token) =>
      var k := FirstLeasable(st.jobs, now, cfg);
      st.(jobs := AfterClaim(st.jobs, now, token, cfg), clock := now,
          claims := if k < |st.jobs| then st.claims + [Claim(k, token, now, now + cfg.leaseMs)] else st.claims)
    case AnchoredStep(i, txHash, token) =>
      st.(jobs := AfterAnchored(st.jobs, i, txHash, token),
          ended := if TxHash(txHash) && Holds(st.jobs, i, token) then st.ended + {token} else st.ended)
    case FailedStep(i, error, token) =>
      st.(jobs := AfterFailed(st.jobs, i, error, token, cfg),
          ended := if Holds(st.jobs, i, token) then st.ended + {token} else st.ended)
  }

  function ClaimsOf(claims: seq<Claim>, job: nat): nat {
    if claims == [] then 0
    else ClaimsOf(claims[..|claims| - 1], job) + if claims[|claims| - 1].job == job then 1 else 0
  }

  /** The claim a processing job is leased under. */
  predicate Current(j: Job, c: Claim) {
    j.status == Processing && j.claimToken == Some(c.token) && j.leaseUntil == Some(c.until)
  }

  predicate JobInv(j: Job, claimed: nat, cfg: Config) {
    && claimed == (if j.attempts <= cfg.maxAttempts then j.attempts else cfg.maxAttempts)
    && j.attempts <= cfg.maxAttempts + 1
    && (j.attempts == cfg.maxAttempts + 1 ==> j.status == Failed)
    && (j.status == Processing <==> j.claimToken.Some?)
    && (j.status == Processing <==> j.leaseUntil.Some?)
  }

  /** Once a claim is no longer the current one of its job, its worker reported or its lease ran out. */
  predicate Settled(st: State, c: Claim) {
    c.token in st.ended || c.until <= st.clock
  }

  ghost predicate CountsInv(jobs: seq<Job>, claims: seq<Claim>, cfg: Config) {
    && (forall i | 0 <= i < |jobs| :: JobInv(jobs[i], ClaimsOf(claims, i), cfg))
    && (forall a | 0 <= a < |claims| :: claims[a].job < |jobs|)
  }

  ghost predicate TokensDistinct(claims: seq<Claim>) {
    forall a, b | 0 <= a < b < |claims| :: claims[a].token != claims[b].token
  }

  /** Claim `a` is the latest one of its job. */
  ghost predicate Latest(claims: seq<Claim>, a: nat, job: nat) {
    a < |claims| && claims[a].job == job && forall b | a < b < |claims| :: claims[b].job != job
  }

  ghost predicate HeldByLatest(j: Job, claims: seq<Claim>, i: nat) {
    j.claimToken.Some? ==> exists a: nat :: Latest(claims, a, i) && Current(j, claims[a])
  }

  ghost predicate TokensInv(jobs: seq<Job>, claims: seq<Claim>) {
    && TokensDistinct(claims)
    && (forall i | 0 <= i < |jobs| :: HeldByLatest(jobs[i], claims, i))
  }

  ghost predicate SettledInv(st: State) {
    forall a | 0 <= a < |st.claims| ::
      && st.claims[a].job < |st.jobs|
      && (Settled(st, st.claims[a]) || Current(st.jobs[st.claims[a].job], st.claims[a]))
  }

  /** Of two claims of one job, the earlier worker had reported, or its lease had run out, before the later claim. */
  ghost predicate LeasesInv(claims: seq<Claim>, ended: set<nat>) {
    forall a, b | 0 <= a < b < |claims| && claims[a].job == claims[b].job ::
      claims[a].token in ended || claims[a].until <= claims[b].at
  }

  ghost predicate Inv(st: State, cfg: Config) {
    && IndexInv(st.jobs, st.byEvidence)
    && CountsInv(st.jobs, st.claims, cfg)
    && TokensInv(st.jobs, st.claims)
  }

  /** What holds in addition while claim times never go back. */
  ghost predicate LeaseInv(st: State) {
    SettledInv(st) && LeasesInv(st.claims, st.ended)
  }

  lemma {:induction false} NoClaimsOf(claims: seq<Claim>, job: nat)
    requires forall a | 0 <= a < |claims| :: claims[a].job != job
    ensures ClaimsOf(claims, job) == 0
  {
    if claims != [] {
      NoClaimsOf(claims[..|claims| - 1], job);
    }
  }

  lemma EnqueueKeepsIndex(st: State, e: Evidence)
    requires IndexInv(st.jobs, st.byEvidence) && HashOnly(e) && EvidenceKey(e) !in st.byEvidence
    ensures IndexInv(st.jobs + [NewJob(e)], st.byEvidence[EvidenceKey(e) := |st.jobs|])
  {
    IndexGrows(st.jobs, st.byEvidence, e, EvidenceKey(e));
  }

  lemma EnqueueKeepsJobs(st: State, e: Evidence, cfg: Config)
    requires CountsInv(st.jobs, st.claims, cfg) && TokensInv(st.jobs, st.claims)
    ensures CountsInv(st.jobs + [NewJob(e)], st.claims, cfg) && TokensInv(st.jobs + [NewJob(e)], st.claims)
  {
    NoClaimsOf(st.claims, |st.jobs|);
    var jobs := st.jobs + [NewJob(e)];
    assert forall i | 0 <= i < |st.jobs| :: jobs[i] == st.jobs[i];
    forall i | 0 <= i < |jobs|
      ensures JobInv(jobs[i], ClaimsOf(st.claims, i), cfg) && HeldByLatest(jobs[i], st.claims, i)
    {
      if i < |st.jobs| {
        assert JobInv(st.jobs[i], ClaimsOf(st.claims, i), cfg) && HeldByLatest(st.jobs[i], st.claims, i);
      }
    }
  }

  lemma EnqueueKeepsInv(st: State, e: Evidence, cfg: Config)
    requires Inv(st, cfg)
    ensures Inv(Next(st, EnqueueStep(e), cfg), cfg)
  {
    if HashOnly(e) && EvidenceKey(e) !in st.byEvidence {
      EnqueueKeepsIndex(st, e);
      EnqueueKeepsJobs(st, e, cfg);
    }
  }

  lemma ClaimKeepsIndex(jobs: seq<Job>, byEvidence: map<string, nat>, now: int, token: nat, cfg: Config)
    requires IndexInv(jobs, byEvidence)
    ensures IndexInv(AfterClaim(jobs, now, token, cfg), byEvidence)
  {
    var next := AfterClaim(jobs, now, token, cfg);
    forall i | 0 <= i < |next|
      ensures next[i].evidence == jobs[i].evidence && FiledAs(next[i].evidence, byEvidence, i)
    {
      assert FiledAs(jobs[i].evidence, byEvidence, i);
    }
  }

  function ClaimsAfter(st: State, now: int, token: nat, cfg: Config): seq<Claim> {
    Next(st, ClaimStep(now, token), cfg).claims
  }

  lemma LeasedJobInv(j: Job, claimed: nat, now: int, token: nat, cfg: Config)
    requires JobInv(j, claimed, cfg) && Claimable(j, now)
    ensures j.attempts < cfg.maxAttempts ==> JobInv(Leased(j, now, token, cfg), claimed + 1, cfg)
    ensures j.attempts >= cfg.maxAttempts ==> JobInv(Exhausted(j), claimed, cfg)
  {
  }

  lemma ClaimKeepsJob(jobs: seq<Job>, claims: seq<Claim>, now: int, token: nat, cfg: Config, i: nat)
    requires i < |jobs| && JobInv(jobs[i], ClaimsOf(claims, i), cfg)
    ensures var k := FirstLeasable(jobs, now, cfg);
            JobInv(AfterClaim(jobs, now, token, cfg)[i], ClaimsOf(claims, i) + if i == k then 1 else 0, cfg)
  {
    if Claimable(jobs[i], now) {
      LeasedJobInv(jobs[i], ClaimsOf(claims, i), now, token, cfg);
    }
  }

  lemma ClaimKeepsCounts(st: State, now: int, token: nat, cfg: Config)
    requires CountsInv(st.jobs, st.claims, cfg)
    ensures CountsInv(AfterClaim(st.jobs, now, token, cfg), ClaimsAfter(st, now, token, cfg), cfg)
  {
    var next, claims := AfterClaim(st.jobs, now, token, cfg), ClaimsAfter(st, now, token, cfg);
    var k := FirstLeasable(st.jobs, now, cfg);
    if k < |st.jobs| {
      assert claims[..|st.claims|] == st.claims && claims[|st.claims|].job == k;
    }
    forall i | 0 <= i < |next|
      ensures JobInv(next[i], ClaimsOf(claims, i), cfg)
    {
      ClaimKeepsJob(st.jobs, st.claims, now, token, cfg, i);
    }
  }

  lemma ClaimKeepsTokens(st: State, now: int, token: nat, cfg: Config)
    requires TokensInv(st.jobs, st.claims) && !TokenUsed(st.claims, token)
    ensures TokensInv(AfterClaim(st.jobs, now, token, cfg), ClaimsAfter(st, now, token, cfg))
  {
    var next, claims := AfterClaim(st.jobs, now, token, cfg), ClaimsAfter(st, now, token, cfg);
    var k := FirstLeasable(st.jobs, now, cfg);
    forall i | 0 <= i < |next|
      ensures HeldByLatest(next[i], claims, i)
    {
      if i == k {
        assert Latest(claims, |st.claims|, i) && Current(next[i], claims[|st.claims|]);
      } else if next[i].claimToken.Some? {
        assert HeldByLatest(st.jobs[i], st.claims, i);
        var a: nat :| Latest(st.claims, a, i) && Current(st.jobs[i], st.claims[a]);
        assert Latest(claims, a, i);
      }
    }
  }

  /** The claim does not go back behind the one before it, if there is one. */
  predicate ClaimsForward(st: State, now: int) {
    st.claims == [] || st.clock <= now
  }

  lemma ClaimKeepsSettled(st: State, now: int, token: nat, cfg: Config)
    requires SettledInv(st) && ClaimsForward(st, now)
    ensures SettledInv(Next(st, ClaimStep(now, token), cfg))
  {
    var next := Next(st, ClaimStep(now, token), cfg);
    forall a | 0 <= a < |next.claims|
      ensures next.claims[a].job < |next.jobs|
      ensures Settled(next, next.claims[a]) || Current(next.jobs[next.claims[a].job], next.claims[a])
    {
      if a < |st.claims| {
        var c := st.claims[a];
        assert next.claims[a] == c;
        assert Settled(st, c) || Current(st.jobs[c.job], c);
      }
    }
  }

  lemma ClaimKeepsLeases(st: State, now: int, token: nat, cfg: Config)
    requires LeaseInv(st) && ClaimsForward(st, now)
    ensures LeasesInv(ClaimsAfter(st, now, token, cfg), st.ended)
  {
    var claims := ClaimsAfter(st, now, token, cfg);
    forall a, b | 0 <= a < b < |claims| && claims[a].job == claims[b].job
      ensures claims[a].token in st.ended || claims[a].until <= claims[b].at
    {
      if b == |st.claims| {
        assert Settled(st, st.claims[a]) || Current(st.jobs[st.claims[a].job], st.claims[a]);
      }
    }
  }

  /** `next` is `st` after the holder of `token` gave job `i` back. */
  ghost predicate Reported(st: State, next: State, i: nat, token: nat) {
    && Holds(st.jobs, i, token)
    && next.claims == st.claims && next.byEvidence == st.byEvidence && next.clock == st.clock
    && next.ended == st.ended + {token} && |next.jobs| == |st.jobs|
    && (forall m | 0 <= m < |st.jobs| && m != i :: next.jobs[m] == st.jobs[m])
    && next.jobs[i].evidence == st.jobs[i].evidence && next.jobs[i].attempts == st.jobs[i].attempts
    && next.jobs[i].claimToken.None? && next.jobs[i].leaseUntil.None? && next.jobs[i].status != Processing
  }

  lemma ReportKeepsInv(st: State, next: State, i: nat, token: nat, cfg: Config)
    requires Inv(st, cfg) && Reported(st, next, i, token)
    ensures Inv(next, cfg)
  {
    assert JobInv(st.jobs[i], ClaimsOf(st.claims, i), cfg);
    forall m | 0 <= m < |next.jobs|
      ensures JobInv(next.jobs[m], ClaimsOf(next.claims, m), cfg)
      ensures HeldByLatest(next.jobs[m], next.claims, m)
    {
      assert JobInv(st.jobs[m], ClaimsOf(st.claims, m), cfg);
      assert HeldByLatest(st.jobs[m], st.claims, m);
    }
  }

  lemma ReportKeepsLeases(st: State, next: State, i: nat, token: nat)
    requires LeaseInv(st) && Reported(st, next, i, token)
    ensures LeaseInv(next)
  {
    forall a | 0 <= a < |st.claims|
      ensures Settled(next, st.claims[a]) || Current(next.jobs[st.claims[a].job], st.claims[a])
    {
      assert Settled(st, st.claims[a]) || Current(st.jobs[st.claims[a].job], st.claims[a]);
    }
  }

  /** One step; a step that is not enabled does not happen. */
  function Do(st: State, step: Step, cfg: Config): State {
    if Enabled(st, step) then Next(st, step, cfg) else st
  }

  lemma ClaimKeepsInv(st: State, now: int, token: nat, cfg: Config)
    requires Inv(st, cfg) && Enabled(st, ClaimStep(now, token))
    ensures Inv(Next(st, ClaimStep(now, token), cfg), cfg)
  {
    ClaimKeepsIndex(st.jobs, st.byEvidence, now, token, cfg);
    ClaimKeepsCounts(st, now, token, cfg);
    ClaimKeepsTokens(st, now, token, cfg);
  }

  lemma StepKeepsInv(st: State, step: Step, cfg: Config)
    requires Inv(st, cfg)
    ensures Inv(Do(st, step, cfg), cfg)
  {
    if Enabled(st, step) {
      match step
      case EnqueueStep(e) => EnqueueKeepsInv(st, e, cfg);
      case ClaimStep(now, token) =>
        ClaimKeepsInv(st, now, token, cfg);
      case AnchoredStep(i, txHash, token) =>
        if TxHash(txHash) && Holds(st.jobs, i, token) {
          ReportKeepsInv(st, Next(st, step, cfg), i, token, cfg);
        }
      case FailedStep(i, error, token) =>
        if Holds(st.jobs, i, token) {
          ReportKeepsInv(st, Next(st, step, cfg), i, token, cfg);
        }
    }
  }

  function Run(steps: seq<Step>, cfg: Config): State {
    if steps == [] then State([], map[], [], {}, 0)
    else Do(Run(steps[..|steps| - 1], cfg), steps[|steps| - 1], cfg)
  }

  lemma {:induction false} EveryRunKeepsInv(steps: seq<Step>, cfg: Config)
    ensures Inv(Run(steps, cfg), cfg)
  {
    if steps != [] {
      EveryRunKeepsInv(steps[..|steps| - 1], cfg);
      StepKeepsInv(Run(steps[..|steps| - 1], cfg), steps[|steps| - 1], cfg);
    }
  }

  // ---------------------------------------------------------------- clocks that never go back

  lemma EnqueueKeepsLeases(st: State, e: Evidence, cfg: Config)
    requires LeaseInv(st)
    ensures LeaseInv(Next(st, EnqueueStep(e), cfg))
  {
    var next := Next(st, EnqueueStep(e), cfg);
    forall a | 0 <= a < |st.claims|
      ensures Settled(next, st.claims[a]) || Current(next.jobs[st.claims[a].job], st.claims[a])
    {
      assert Settled(st, st.claims[a]) || Current(st.jobs[st.claims[a].job], st.claims[a]);
    }
  }

  lemma StepKeepsLeases(st: State, step: Step, cfg: Config)
    requires LeaseInv(st) && (step.ClaimStep? ==> ClaimsForward(st, step.now))
    ensures LeaseInv(Do(st, step, cfg))
  {
    if Enabled(st, step) {
      match step
      case EnqueueStep(e) => EnqueueKeepsLeases(st, e, cfg);
      case ClaimStep(now, token) =>
        ClaimKeepsSettled(st, now, token, cfg);
        ClaimKeepsLeases(st, now, token, cfg);
      case AnchoredStep(i, txHash, token) =>
        if TxHash(txHash) && Holds(st.jobs, i, token) {
          ReportKeepsLeases(st, Next(st, step, cfg), i, token);
        }
      case FailedStep(i, error, token) =>
        if Holds(st.jobs, i, token) {
          ReportKeepsLeases(st, Next(st, step, cfg), i, token);
        }
    }
  }

  /** The times of the claims, in the order in which they take the lock, never go back. */
  ghost predicate ClockForward(steps: seq<Step>) {
    forall i, j | 0 <= i < j < |steps| && steps[i].ClaimStep? && steps[j].ClaimStep? :: steps[i].now <= steps[j].now
  }

  lemma {:induction false} ClockIsOfAClaim(steps: seq<Step>, cfg: Config)
    ensures var st := Run(steps, cfg);
            st.claims == [] || exists i :: 0 <= i < |steps| && steps[i].ClaimStep? && steps[i].now == st.clock
  {
    if steps != [] {
      var init, last := steps[..|steps| - 1], steps[|steps| - 1];
      ClockIsOfAClaim(init, cfg);
      var before := Run(init, cfg);
      if Run(steps, cfg).claims != [] {
        if last.ClaimStep? && Enabled(before, last) {
          assert steps[|steps| - 1].now == Run(steps, cfg).clock;
        } else {
          var i :| 0 <= i < |init| && init[i].ClaimStep? && init[i].now == before.clock;
          assert steps[i] == init[i];
        }
      }
    }
  }

  lemma {:induction false} ForwardRunKeepsLeases(steps: seq<Step>, cfg: Config)
    requires ClockForward(steps)
    ensures LeaseInv(Run(steps, cfg))
  {
    if steps != [] {
      var init, last := steps[..|steps| - 1], steps[|steps| - 1];
      ForwardRunKeepsLeases(init, cfg);
      ClockIsOfAClaim(init, cfg);
      StepKeepsLeases(Run(init, cfg), last, cfg);
    }
  }

  // ---------------------------------------------------------------- what the runs guarantee

  /** While claim times never go back no two unexpired leases cover one job: at the later claim the earlier lease
      is over or given back. */
  lemma NoTwoLiveLeases(steps: seq<Step>, cfg: Config, a: nat, b: nat)
    requires ClockForward(steps) && a < b < |Run(steps, cfg).claims|
    requires Run(steps, cfg).claims[a].job == Run(steps, cfg).claims[b].job
    ensures var st := Run(steps, cfg);
            st.claims[a].token in st.ended || st.claims[a].until <= st.claims[b].at
  {
    ForwardRunKeepsLeases(steps, cfg);
  }

  /** A job is claimed, and so anchored, at most `maxAttempts` times. */
  lemma AnchorCallsBounded(steps: seq<Step>, cfg: Config, i: nat)
    requires i < |Run(steps, cfg).jobs|
    ensures var st := Run(steps, cfg);
            && ClaimsOf(st.claims, i) <= cfg.maxAttempts
            && st.jobs[i].attempts <= cfg.maxAttempts + 1
            && (st.jobs[i].attempts > cfg.maxAttempts ==> st.jobs[i].status == Failed)
  {
    EveryRunKeepsInv(steps, cfg);
    var st := Run(steps, cfg);
    assert JobInv(st.jobs[i], ClaimsOf(st.claims, i), cfg);
  }

  lemma SupersededTokenNotHeld(jobs: seq<Job>, claims: seq<Claim>, a: nat, b: nat)
    requires TokensInv(jobs, claims) && a < b < |claims| && claims[a].job == claims[b].job < |jobs|
    ensures !Holds(jobs, claims[a].job, claims[a].token)
  {
    var i := claims[a].job;
    assert HeldByLatest(jobs[i], claims, i);
    assert forall c: nat | Latest(claims, c, i) :: c != a && claims[c].token != claims[a].token;
  }

  /** The job could be leased at some time. */
  ghost predicate CanBeLeased(j: Job, cfg: Config) {
    exists now: int :: Claimable(j, now) && j.attempts < cfg.maxAttempts
  }

  /** A reported failure leaves the job leasable again, at any time, if and only if attempts are left; otherwise it
      has failed. The error is kept, the lease and the token are gone, and no other job changes. */
  lemma FailureRetriesIff(st: State, i: nat, error: string, token: nat, cfg: Config)
    requires Holds(st.jobs, i, token)
    ensures var t := Next(st, FailedStep(i, error, token), cfg);
            var was, now := st.jobs[i], t.jobs[i];
            && (CanBeLeased(now, cfg) <==> was.attempts < cfg.maxAttempts)
            && (was.attempts < cfg.maxAttempts ==> forall at: int :: Claimable(now, at))
            && (was.attempts >= cfg.maxAttempts ==> now.status == Failed)
            && now.lastError == Some(error) && now.claimToken.None? && now.leaseUntil.None?
            && now.attempts == was.attempts && now.evidence == was.evidence && now.txHash == was.txHash
            && t.jobs == st.jobs[i := now] && t.ended == st.ended + {token}
  {
    var now := Next(st, FailedStep(i, error, token), cfg).jobs[i];
    if st.jobs[i].attempts < cfg.maxAttempts {
      assert Claimable(now, 0);
    }
  }

  /** A reported success anchors the job under its transaction hash, once and for all. */
  lemma SuccessAnchors(st: State, i: nat, txHash: string, token: nat, cfg: Config)
    requires Holds(st.jobs, i, token) && TxHash(txHash)
    ensures var t := Next(st, AnchoredStep(i, txHash, token), cfg);
            var was, now := st.jobs[i], t.jobs[i];
            && now.status == Anchored && now.txHash == Some(txHash) && now.lastError.None?
            && now.claimToken.None? && now.leaseUntil.None? && !CanBeLeased(now, cfg)
            && now.attempts == was.attempts && now.evidence == was.evidence
            && t.jobs == st.jobs[i := now] && t.ended == st.ended + {token}
  {
  }

  /** Once a job has been claimed again, the earlier token changes nothing, whatever it reports. */
  lemma SupersededTokenIsInert(st: State, cfg: Config, a: nat, b: nat, txHash: string, error: string)
    requires Inv(st, cfg) && a < b < |st.claims| && st.claims[a].job == st.claims[b].job
    ensures Next(st, AnchoredStep(st.claims[a].job, txHash, st.claims[a].token), cfg) == st
    ensures Next(st, FailedStep(st.claims[a].job, error, st.claims[a].token), cfg) == st
  {
    var i, token := st.claims[a].job, st.claims[a].token;
    assert !Holds(st.jobs, i, token) by {
      assert i < |st.jobs|;
      SupersededTokenNotHeld(st.jobs, st.claims, a, b);
    }
    UnheldTokenIsInert(st, cfg, i, token, txHash, error);
  }

  lemma UnheldTokenIsInert(st: State, cfg: Config, i: nat, token: nat, txHash: string, error: string)
    requires !Holds(st.jobs, i, token)
    ensures Next(st, AnchoredStep(i, txHash, token), cfg) == st
    ensures Next(st, FailedStep(i, error, token), cfg) == st
  {
  }

  /** Anchored and failed jobs never change again. */
  lemma TerminalJobsAreAbsorbing(st: State, step: Step, cfg: Config, i: nat)
    requires i < |st.jobs| && (st.jobs[i].status == Anchored || st.jobs[i].status == Failed)
    ensures i < |Do(st, step, cfg).jobs| && Do(st, step, cfg).jobs[i] == st.jobs[i]
  {
  }

  /** Attempts left over all jobs, counting the one that fails a job. */
  function Remaining(jobs: seq<Job>, cfg: Config): int {
    if jobs == [] then 0 else (cfg.maxAttempts + 1 - jobs[0].attempts) + Remaining(jobs[1..], cfg)
  }

  lemma {:induction false} RemainingDecreases(jobs: seq<Job>, next: seq<Job>, cfg: Config)
    requires |jobs| == |next|
    requires forall i | 0 <= i < |jobs| :: next[i].attempts == jobs[i].attempts || next[i].attempts == jobs[i].attempts + 1
    ensures Remaining(next, cfg) <= Remaining(jobs, cfg)
    ensures (exists i :: 0 <= i < |jobs| && next[i].attempts != jobs[i].attempts)
            ==> Remaining(next, cfg) < Remaining(jobs, cfg)
  {
    if jobs != [] {
      RemainingDecreases(jobs[1..], next[1..], cfg);
      if next[0].attempts == jobs[0].attempts
         && exists i :: 0 <= i < |jobs| && next[i].attempts != jobs[i].attempts
      {
        var i :| 0 <= i < |jobs| && next[i].attempts != jobs[i].attempts;
        assert next[1..][i - 1].attempts != jobs[1..][i - 1].attempts;
      }
    }
  }

  lemma {:induction false} RemainingNonNegative(jobs: seq<Job>, cfg: Config)
    requires forall i | 0 <= i < |jobs| :: jobs[i].attempts <= cfg.maxAttempts + 1
    ensures 0 <= Remaining(jobs, cfg) <= (cfg.maxAttempts + 1) * |jobs|
  {
    if jobs != [] {
      RemainingNonNegative(jobs[1..], cfg);
    }
  }

  lemma AttemptsAfterStep(st: State, step: Step, cfg: Config, i: nat)
    requires !step.EnqueueStep? && i < |st.jobs|
    ensures var next := Do(st, step, cfg).jobs;
            && |next| == |st.jobs|
            && (next[i].attempts == st.jobs[i].attempts || next[i].attempts == st.jobs[i].attempts + 1)
            && (step.ClaimStep? && next[i] != st.jobs[i] ==> next[i].attempts != st.jobs[i].attempts)
  {
  }

  lemma RemainingAfterStep(st: State, step: Step, cfg: Config)
    requires !step.EnqueueStep?
    ensures Remaining(Do(st, step, cfg).jobs, cfg) <= Remaining(st.jobs, cfg)
    ensures step.ClaimStep? && Do(st, step, cfg).jobs != st.jobs
            ==> Remaining(Do(st, step, cfg).jobs, cfg) < Remaining(st.jobs, cfg)
  {
    var next := Do(st, step, cfg).jobs;
    assert |next| == |st.jobs|;
    forall i: nat | i < |st.jobs|
      ensures next[i].attempts == st.jobs[i].attempts || next[i].attempts == st.jobs[i].attempts + 1
      ensures step.ClaimStep? && next[i] != st.jobs[i] ==> next[i].attempts != st.jobs[i].attempts
    {
      AttemptsAfterStep(st, step, cfg, i);
    }
    RemainingDecreases(st.jobs, next, cfg);
    if step.ClaimStep? && next != st.jobs {
      var i :| 0 <= i < |st.jobs| && next[i] != st.jobs[i];
    }
  }

  /** Every claim that leases or fails a job uses up some of a bounded measure, and no report gives any back:
      without new jobs there are only boundedly many claims. */
  lemma ClaimsUseUpTheMeasure(st: State, step: Step, cfg: Config)
    requires Inv(st, cfg) && !step.EnqueueStep?
    ensures 0 <= Remaining(Do(st, step, cfg).jobs, cfg) <= Remaining(st.jobs, cfg) <= (cfg.maxAttempts + 1) * |st.jobs|
    ensures step.ClaimStep? && Do(st, step, cfg).jobs != st.jobs
            ==> Remaining(Do(st, step, cfg).jobs, cfg) < Remaining(st.jobs, cfg)
  {
    StepKeepsInv(st, step, cfg);
    MeasureBounded(st, cfg);
    MeasureBounded(Do(st, step, cfg), cfg);
    RemainingAfterStep(st, step, cfg);
  }

  lemma MeasureBounded(st: State, cfg: Config)
    requires Inv(st, cfg)
    ensures 0 <= Remaining(st.jobs, cfg) <= (cfg.maxAttempts + 1) * |st.jobs|
  {
    forall i | 0 <= i < |st.jobs|
      ensures st.jobs[i].attempts <= cfg.maxAttempts + 1
    {
      assert JobInv(st.jobs[i], ClaimsOf(st.claims, i), cfg);
    }
    RemainingNonNegative(st.jobs, cfg);
  }
}
