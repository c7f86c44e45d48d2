/** claimNext of src/mandates/anchor-outbox.ts:151-175 as workers see it: who gets which job, and what becomes of the
    jobs that have no attempts left. */
module AnchorClaims {
  import opened Outcomes
  import opened AnchorOutbox

  /** The job waits, or the lease of its worker has run out. */
  predicate Available(j: Job, now: int) {
    j.status == Pending || (j.status == Processing && (if j.leaseUntil.None? then true else j.leaseUntil.value <= now))
  }

  ghost predicate FirstWithAttempts(jobs: seq<Job>, now: int, cfg: Config, k: nat) {
    && k < |jobs| && Available(jobs[k], now) && jobs[k].attempts < cfg.maxAttempts
    && forall i | 0 <= i < k && Available(jobs[i], now) :: jobs[i].attempts >= cfg.maxAttempts
  }

  /** What a claim makes of a job that it passes: one that is available is out of attempts and has failed. */
  ghost predicate Passed(was: Job, now: Job, at: int) {
    if Available(was, at) then
      now == was.(status := Failed, attempts := was.attempts + 1, claimToken := None, leaseUntil := None,
                  lastError := Some("max attempts exceeded"))
    else now == was
  }

  /** The worker gets job k under its token, the jobs before it are passed, and those after it stay as they are. */
  ghost predicate Claims(st: State, t: State, k: nat, now: int, token: nat, cfg: Config) {
    && k < |st.jobs| == |t.jobs|
    && t.claims == st.claims + [Claim(k, token, now, now + cfg.leaseMs)]
    && t.jobs[k] == st.jobs[k].(status := Processing, attempts := st.jobs[k].attempts + 1, claimToken := Some(token),
                                leaseUntil := Some(now + cfg.leaseMs))
    && (forall i | 0 <= i < k :: Passed(st.jobs[i], t.jobs[i], now))
    && (forall i | k < i < |st.jobs| :: t.jobs[i] == st.jobs[i])
  }

  lemma FirstIsLeased(jobs: seq<Job>, now: int, cfg: Config, k: nat)
    requires FirstWithAttempts(jobs, now, cfg, k)
    ensures FirstLeasable(jobs, now, cfg) == k
  {
    var f := FirstLeasable(jobs, now, cfg);
    assert Claimable(jobs[k], now);
    assert f <= k;
    assert Available(jobs[f], now);
  }

  /** A claim hands out the first available job with attempts left. Without such a job nobody gets one, and every
      available job has failed. */
  lemma ClaimTakesFirst(st: State, now: int, token: nat, cfg: Config)
    ensures forall k: nat | FirstWithAttempts(st.jobs, now, cfg, k) ::
              Claims(st, Next(st, ClaimStep(now, token), cfg), k, now, token, cfg)
    ensures (forall k | 0 <= k < |st.jobs| && Available(st.jobs[k], now) :: st.jobs[k].attempts >= cfg.maxAttempts) ==>
              var t := Next(st, ClaimStep(now, token), cfg);
              && t.claims == st.claims && |t.jobs| == |st.jobs|
              && forall i | 0 <= i < |st.jobs| :: Passed(st.jobs[i], t.jobs[i], now)
  {
    forall k: nat | FirstWithAttempts(st.jobs, now, cfg, k)
      ensures FirstLeasable(st.jobs, now, cfg) == k
    {
      FirstIsLeased(st.jobs, now, cfg, k);
    }
    var f := FirstLeasable(st.jobs, now, cfg);
    assert f < |st.jobs| ==> Available(st.jobs[f], now);
  }

  /** A job whose worker has crashed is available again as soon as its lease is over, and not before. */
  lemma CrashedJobComesBack(st: State, k: nat, now: int, token: nat, cfg: Config, later: int)
    requires FirstWithAttempts(st.jobs, now, cfg, k)
    ensures var j := Next(st, ClaimStep(now, token), cfg).jobs[k];
            Available(j, later) <==> now + cfg.leaseMs <= later
  {
    ClaimTakesFirst(st, now, token, cfg);
  }

  /** New evidence is filed once, as a job that waits with all its attempts; evidence for a pair of closed hashes that
      has a job changes nothing. */
  lemma EnqueueFilesOnce(st: State, e: Evidence, cfg: Config)
    requires IndexInv(st.jobs, st.byEvidence) && HashOnly(e)
    ensures var t := Next(st, EnqueueStep(e), cfg);
            var known := exists i :: 0 <= i < |st.jobs| && st.jobs[i].evidence.closedCheckoutHash == e.closedCheckoutHash
                                     && st.jobs[i].evidence.closedPaymentHash == e.closedPaymentHash;
            if known then t == st
            else t.jobs == st.jobs + [Job(e, 0, Pending, None, None, None, None)] && t.claims == st.claims
  {
    var key := EvidenceKey(e);
    if key in st.byEvidence {
      var i := st.byEvidence[key];
      assert FiledAs(st.jobs[i].evidence, st.byEvidence, i);
      KeyIsInjective(st.jobs[i].evidence, e);
    } else {
      forall i | 0 <= i < |st.jobs|
        ensures EvidenceKey(st.jobs[i].evidence) != key
      {
        assert FiledAs(st.jobs[i].evidence, st.byEvidence, i);
      }
    }
  }
}
