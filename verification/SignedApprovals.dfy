/** Where an active mandate comes from (src/mandates/trusted-surface.ts:287-424): in every run, an approval that
    passed all checks of its challenge, with a wallet signature that verified and a wallet the KYA records allow. */
module SignedApprovals {
  import opened Outcomes
  import opened OpenMandates
  import opened TrustedSurface

  /** The challenge belongs to the caller, is open, in time, and intact. */
  predicate Sound(c: Challenge, records: Records, a: Approval) {
    && c.id == a.challengeId && c.owner == a.owner && c.consumedAt.None? && a.now < c.expiresAt
    && TimesIntact(c, a.now, a.clockSkewMs) && MandateIntact(c, records)
  }

  /** The approval goes on to the registry exactly when its challenge is sound, the wallet is allowed to approve
      and its signature is valid. */
  lemma ApprovedIff(c: Challenge, records: Records, a: Approval, allowed: bool, valid: bool)
    ensures ApprovalFault(c, records, a, allowed, valid).None? <==> Sound(c, records, a) && allowed && valid
  {
  }

  /** The step checks this approval of this challenge, and finds the wallet allowed and its signature valid. */
  predicate CheckedBy(before: State, step: Step, c: Challenge, a: Approval) {
    && step.CheckApproval? && step.allowed && step.valid
    && step.call in before.calls && before.calls[step.call] == Read(c, a) && Sound(c, before.records, a)
  }

  predicate CheckedAt(steps: seq<Step>, j: nat, c: Challenge, a: Approval) {
    j < |steps| && CheckedBy(Run(steps[..j]), steps[j], c, a)
  }

  ghost predicate Checked(steps: seq<Step>, c: Challenge, a: Approval) {
    exists j: nat :: CheckedAt(steps, j, c, a)
  }

  ghost predicate CallsChecked(steps: seq<Step>, calls: map<nat, Call>) {
    forall n | n in calls && calls[n].Waiting? :: Checked(steps, calls[n].challenge, calls[n].approval)
  }

  ghost predicate LockChecked(steps: seq<Step>, lock: Option<Holder>) {
    lock.Some? ==>
      var h := lock.value;
      && Checked(steps, h.challenge, h.approval)
      && h.proof.signature == h.approval.signature && h.proof.challengeId == Some(h.challenge.id)
      && h.proof.ownerAddress == Some(h.approval.owner) && h.proof.activatedAt == h.approval.now
  }

  /** The mandate carries the signature of this approval, made with this challenge of its own. */
  ghost predicate SignedBy(steps: seq<Step>, m: OpenMandate, id: string, c: Challenge, a: Approval) {
    && Checked(steps, c, a) && c.mandateId == id
    && m.userSignature == Some(a.signature)
    && m.activationProof.Some? && m.activationProof.value.signature == a.signature
    && m.activationProof.value.challengeId == Some(c.id) && m.activationProof.value.ownerAddress == Some(a.owner)
    && m.activationProof.value.activatedAt == a.now
  }

  ghost predicate MandateSigned(steps: seq<Step>, m: OpenMandate, id: string) {
    m.activationProof.Some? ==> exists c, a :: SignedBy(steps, m, id, c, a)
  }

  ghost predicate MandatesSigned(steps: seq<Step>, records: Records) {
    forall id | id in records :: MandateSigned(steps, records[id], id)
  }

  ghost predicate AllChecked(steps: seq<Step>) {
    var st := Run(steps);
    CallsChecked(steps, st.calls) && LockChecked(steps, st.lock) && MandatesSigned(steps, st.records)
  }

  // ---------------------------------------------------------------- longer runs

  lemma CheckedStays(steps: seq<Step>, last: Step, c: Challenge, a: Approval)
    requires Checked(steps, c, a)
    ensures Checked(steps + [last], c, a)
  {
    var j: nat :| CheckedAt(steps, j, c, a);
    assert (steps + [last])[..j] == steps[..j] && (steps + [last])[j] == steps[j];
    assert CheckedAt(steps + [last], j, c, a);
  }

  lemma CallsStayChecked(steps: seq<Step>, last: Step, calls: map<nat, Call>)
    requires CallsChecked(steps, calls)
    ensures CallsChecked(steps + [last], calls)
  {
    forall n | n in calls && calls[n].Waiting?
      ensures Checked(steps + [last], calls[n].challenge, calls[n].approval)
    {
      CheckedStays(steps, last, calls[n].challenge, calls[n].approval);
    }
  }

  lemma LockStaysChecked(steps: seq<Step>, last: Step, lock: Option<Holder>)
    requires LockChecked(steps, lock)
    ensures LockChecked(steps + [last], lock)
  {
    if lock.Some? {
      CheckedStays(steps, last, lock.value.challenge, lock.value.approval);
    }
  }

  lemma MandateStaysSigned(steps: seq<Step>, last: Step, m: OpenMandate, id: string)
    requires MandateSigned(steps, m, id)
    ensures MandateSigned(steps + [last], m, id)
  {
    if m.activationProof.Some? {
      var c, a :| SignedBy(steps, m, id, c, a);
      CheckedStays(steps, last, c, a);
      assert SignedBy(steps + [last], m, id, c, a);
    }
  }

  lemma MandatesStaySigned(steps: seq<Step>, last: Step, records: Records)
    requires MandatesSigned(steps, records)
    ensures MandatesSigned(steps + [last], records)
  {
    forall id | id in records
      ensures MandateSigned(steps + [last], records[id], id)
    {
      MandateStaysSigned(steps, last, records[id], id);
    }
  }

  // ---------------------------------------------------------------- one step

  /** A call that is checked without a valid signature, or without a wallet that may approve, ends there. */
  lemma UncheckedNeverWaits(st: State, n: nat, allowed: bool, valid: bool)
    requires n in st.calls && st.calls[n].Read? && !(allowed && valid)
    ensures Next(st, CheckApproval(n, allowed, valid)) == st.(calls := st.calls - {n})
  {
  }

  lemma CheckIsRecorded(steps: seq<Step>, last: Step, n: nat)
    requires last.CheckApproval? && last.call == n && n in Run(steps).calls && Run(steps).calls[n].Read?
    requires n in Next(Run(steps), last).calls
    ensures var call := Run(steps).calls[n];
            && Next(Run(steps), last).calls[n] == Waiting(call.challenge, call.approval)
            && Checked(steps + [last], call.challenge, call.approval)
  {
    var st, call := Run(steps), Run(steps).calls[n];
    ApprovedIff(call.challenge, st.records, call.approval, last.allowed, last.valid);
    assert call == Read(call.challenge, call.approval);
    assert (steps + [last])[..|steps|] == steps && (steps + [last])[|steps|] == last;
    assert CheckedAt(steps + [last], |steps|, call.challenge, call.approval);
  }

  lemma OtherCallsComeFrom(st: State, step: Step, n: nat)
    requires n in Next(st, step).calls && Next(st, step).calls[n].Waiting?
    ensures n in st.calls
    ensures st.calls[n] == Next(st, step).calls[n] || (step.CheckApproval? && step.call == n && st.calls[n].Read?)
  {
  }

  lemma StepKeepsCalls(steps: seq<Step>, last: Step)
    requires CallsChecked(steps, Run(steps).calls)
    ensures CallsChecked(steps + [last], Next(Run(steps), last).calls)
  {
    var st, t := Run(steps), Next(Run(steps), last);
    CallsStayChecked(steps, last, st.calls);
    forall n | n in t.calls && t.calls[n].Waiting?
      ensures Checked(steps + [last], t.calls[n].challenge, t.calls[n].approval)
    {
      OtherCallsComeFrom(st, last, n);
      if st.calls[n] != t.calls[n] {
        CheckIsRecorded(steps, last, n);
      }
    }
  }

  lemma EnterKeepsLock(steps: seq<Step>, st: State, n: nat)
    requires CallsChecked(steps, st.calls) && LockChecked(steps, st.lock)
    ensures LockChecked(steps, DoEnter(st, n).lock)
  {
  }

  lemma PersistKeepsLock(steps: seq<Step>, st: State, fails: bool)
    requires LockChecked(steps, st.lock)
    ensures LockChecked(steps, DoPersist(st, fails).lock)
  {
  }

  lemma OthersKeepLock(st: State, step: Step)
    requires !step.Enter? && !step.Persist? && !step.Commit?
    ensures Next(st, step).lock == st.lock
  {
  }

  lemma StepKeepsLock(steps: seq<Step>, last: Step)
    requires CallsChecked(steps, Run(steps).calls) && LockChecked(steps, Run(steps).lock)
    ensures LockChecked(steps + [last], Next(Run(steps), last).lock)
  {
    var st := Run(steps);
    if last.Enter? {
      EnterKeepsLock(steps, st, last.call);
    } else if last.Persist? {
      PersistKeepsLock(steps, st, last.fails);
    } else if !last.Commit? {
      OthersKeepLock(st, last);
    }
    LockStaysChecked(steps, last, Next(st, last).lock);
  }

  lemma CommitSigns(steps: seq<Step>, st: State, id: string)
    requires LockChecked(steps, st.lock) && MandatesSigned(steps, st.records) && id in DoCommit(st).records
    ensures MandateSigned(steps, DoCommit(st).records[id], id)
  {
    if st.lock.Some? && id == st.lock.value.challenge.mandateId && DoCommit(st) != st {
      var h := st.lock.value;
      assert SignedBy(steps, DoCommit(st).records[id], id, h.challenge, h.approval);
    }
  }

  lemma OthersKeepSignature(st: State, step: Step, id: string)
    requires !step.Commit? && id in Next(st, step).records
    ensures var m := Next(st, step).records[id];
            m.activationProof.Some? ==>
              id in st.records && m.activationProof == st.records[id].activationProof && m.userSignature == st.records[id].userSignature
  {
  }

  lemma SameSignatureSigned(steps: seq<Step>, m: OpenMandate, k: OpenMandate, id: string)
    requires MandateSigned(steps, m, id)
    requires k.activationProof.Some? ==> k.activationProof == m.activationProof && k.userSignature == m.userSignature
    ensures MandateSigned(steps, k, id)
  {
    if k.activationProof.Some? {
      var c, a :| SignedBy(steps, m, id, c, a);
      assert SignedBy(steps, k, id, c, a);
    }
  }

  lemma StepKeepsMandates(steps: seq<Step>, last: Step)
    requires LockChecked(steps, Run(steps).lock) && MandatesSigned(steps, Run(steps).records)
    ensures MandatesSigned(steps + [last], Next(Run(steps), last).records)
  {
    var st, t := Run(steps), Next(Run(steps), last);
    forall id | id in t.records
      ensures MandateSigned(steps, t.records[id], id)
    {
      if last.Commit? {
        CommitSigns(steps, st, id);
      } else {
        OthersKeepSignature(st, last, id);
        if id in st.records {
          SameSignatureSigned(steps, st.records[id], t.records[id], id);
        }
      }
    }
    MandatesStaySigned(steps, last, t.records);
  }

  lemma {:induction false} EveryRunIsChecked(steps: seq<Step>)
    ensures AllChecked(steps)
  {
    if steps != [] {
      var init, last := steps[..|steps| - 1], steps[|steps| - 1];
      EveryRunIsChecked(init);
      StepKeepsCalls(init, last);
      StepKeepsLock(init, last);
      StepKeepsMandates(init, last);
      assert init + [last] == steps;
    }
  }

  // ---------------------------------------------------------------- what the runs guarantee

  /** Whoever holds the registry lock passed all checks, with a valid signature of an allowed wallet. */
  lemma HolderWasChecked(steps: seq<Step>)
    requires Run(steps).lock.Some?
    ensures Checked(steps, Run(steps).lock.value.challenge, Run(steps).lock.value.approval)
  {
    EveryRunIsChecked(steps);
  }

  /** In every run, an active mandate carries the signature of an approval that some step checked: with a sound
      challenge of this very mandate, a wallet that may approve it, and that signature found valid. */
  lemma ActiveWasSigned(steps: seq<Step>, id: string)
    requires id in Run(steps).records && Run(steps).records[id].status == Active
    ensures exists c, a :: SignedBy(steps, Run(steps).records[id], id, c, a)
  {
    EveryRunIsChecked(steps);
    EveryRunKeepsInv(steps);
    var st := Run(steps);
    assert RecordInv(st.records[id], id) && MandateSigned(steps, st.records[id], id);
  }
}
