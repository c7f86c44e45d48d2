/** What becomes of a payment draft and of the request behind it, for every answer of the provider
    (src/services/payments/payment-service.ts:630-681): only a refusal removes a draft, and one whose outcome is
    unknown stays and is asked for again under the same provider key. */
module PaymentOutcomes {
  import opened Outcomes
  import opened CanonicalJson
  import opened PaymentService

  /** The draft that a call may still remove: the one it pushed itself. */
  function OwnDraft(ph: Phase): Option<nat> {
    if ph.Calling? && !ph.retry then Some(ph.id)
    else if ph.Removing? then Some(ph.id)
    else None
  }

  ghost predicate HasDraft(payments: seq<Payment>, id: nat, providerKey: string) {
    exists i :: 0 <= i < |payments| && payments[i].id == id && payments[i].providerKey == providerKey
  }

  ghost predicate DraftsDistinct(calls: seq<Call>) {
    forall i, j | 0 <= i < j < |calls| && OwnDraft(calls[i].phase).Some? ::
      OwnDraft(calls[i].phase) != OwnDraft(calls[j].phase)
  }

  ghost predicate DraftsPresent(calls: seq<Call>, payments: seq<Payment>, nextId: nat) {
    forall i | 0 <= i < |calls| && OwnDraft(calls[i].phase).Some? ::
      && OwnDraft(calls[i].phase).value < nextId
      && HasDraft(payments, OwnDraft(calls[i].phase).value, calls[i].ChargeKey())
  }

  ghost predicate IdsBelow(payments: seq<Payment>, nextId: nat) {
    forall i | 0 <= i < |payments| :: payments[i].id < nextId
  }

  /** Every call in flight owns at most one draft, nobody else's, and it is in the store. */
  ghost predicate DraftInv(st: State) {
    && DraftsDistinct(st.calls)
    && DraftsPresent(st.calls, st.store.payments, st.nextId)
    && IdsBelow(st.store.payments, st.nextId)
  }

  // ---------------------------------------------------------------- what a step does to calls and payments

  predicate Pushes(st: State, step: Step) {
    step.Push? && step.call < |st.calls| && st.calls[step.call].phase.Drafting?
  }

  predicate Removes(st: State, step: Step) {
    step.Advance? && step.call < |st.calls| && st.calls[step.call].phase.Removing?
  }

  ghost predicate SameKeys(a: seq<Payment>, b: seq<Payment>) {
    |a| == |b| && forall i | 0 <= i < |a| :: b[i].id == a[i].id && b[i].providerKey == a[i].providerKey
  }

  /** No call gets a draft of its own, and the payments keep their ids and keys. */
  ghost predicate Quiet(st: State, t: State) {
    && t.nextId == st.nextId && |t.calls| >= |st.calls| && SameKeys(st.store.payments, t.store.payments)
    && (forall i | 0 <= i < |st.calls| ::
          t.calls[i].ChargeKey() == st.calls[i].ChargeKey()
          && (OwnDraft(t.calls[i].phase).Some? ==> OwnDraft(t.calls[i].phase) == OwnDraft(st.calls[i].phase)))
    && (forall i | |st.calls| <= i < |t.calls| :: OwnDraft(t.calls[i].phase).None?)
  }

  lemma MoveIsQuiet(st: State, i: nat, phase: Phase, store: Store)
    requires i < |st.calls| && SameKeys(st.store.payments, store.payments)
    requires OwnDraft(phase).Some? ==> OwnDraft(phase) == OwnDraft(st.calls[i].phase)
    ensures Quiet(st, Move(st, i, phase).(store := store))
  {
    assert st.calls[i].(phase := phase).ChargeKey() == st.calls[i].ChargeKey();
  }

  lemma AdvanceIsQuiet(st: State, i: nat, publicSafe: bool)
    requires i < |st.calls| && !st.calls[i].phase.Removing?
    ensures Quiet(st, DoAdvance(st, i, publicSafe))
  {
    var t := DoAdvance(st, i, publicSafe);
    if t != st {
      assert t == Move(st, i, t.calls[i].phase).(store := t.store);
      MoveIsQuiet(st, i, t.calls[i].phase, t.store);
    }
  }

  lemma ArriveIsQuiet(st: State, actor: string, rawKey: string, bodyHash: Digest)
    ensures Quiet(st, DoArrive(st, actor, rawKey, bodyHash))
  {
  }

  lemma OtherStepsAreQuiet(st: State, step: Step)
    requires step.Check? || step.Lookup? || step.Answer? || step.Throw?
    ensures Quiet(st, Next(st, step))
  {
    var i := step.call;
    if i < |st.calls| {
      var t := Next(st, step);
      assert t == Move(st, i, t.calls[i].phase).(store := st.store);
      MoveIsQuiet(st, i, t.calls[i].phase, st.store);
    }
  }

  lemma QuietSteps(st: State, step: Step)
    requires !Pushes(st, step) && !Removes(st, step)
    ensures Quiet(st, Next(st, step))
  {
    match step
    case Arrive(actor, rawKey, bodyHash) => ArriveIsQuiet(st, actor, rawKey, bodyHash);
    case Push(_) =>
    case Advance(i, publicSafe) => if i < |st.calls| { AdvanceIsQuiet(st, i, publicSafe); }
    case _ => OtherStepsAreQuiet(st, step);
  }

  lemma RemovalStep(st: State, step: Step)
    requires Removes(st, step)
    ensures var t, i := Next(st, step), step.call;
            && |t.calls| == |st.calls| && t.calls == st.calls[i := t.calls[i]] && OwnDraft(t.calls[i].phase).None?
            && t.nextId == st.nextId && t.store.payments == WithoutId(st.store.payments, st.calls[i].phase.id)
  {
  }

  lemma SameKeysKeepDraft(a: seq<Payment>, b: seq<Payment>, id: nat, providerKey: string)
    requires SameKeys(a, b) && HasDraft(a, id, providerKey)
    ensures HasDraft(b, id, providerKey)
  {
    var i :| 0 <= i < |a| && a[i].id == id && a[i].providerKey == providerKey;
    assert b[i].id == id && b[i].providerKey == providerKey;
  }

  lemma PushKeepsDraft(a: seq<Payment>, p: Payment, id: nat, providerKey: string)
    requires HasDraft(a, id, providerKey)
    ensures HasDraft(a + [p], id, providerKey)
  {
    var i :| 0 <= i < |a| && a[i].id == id && a[i].providerKey == providerKey;
    assert (a + [p])[i] == a[i];
  }

  lemma RemovalKeepsDraft(a: seq<Payment>, gone: nat, id: nat, providerKey: string)
    requires HasDraft(a, id, providerKey) && id != gone
    ensures HasDraft(WithoutId(a, gone), id, providerKey)
  {
    var i :| 0 <= i < |a| && a[i].id == id && a[i].providerKey == providerKey;
    assert a[i] in WithoutId(a, gone);
  }

  lemma PushKeepsDraftInv(st: State, i: nat)
    requires DraftInv(st) && i < |st.calls| && st.calls[i].phase.Drafting?
    ensures DraftInv(DoPush(st, i))
  {
    var t := DoPush(st, i);
    var p := Payment(st.nextId, st.calls[i].ChargeKey(), "processing", None);
    assert t.store.payments == st.store.payments + [p];
    forall k | 0 <= k < |t.calls| && OwnDraft(t.calls[k].phase).Some?
      ensures OwnDraft(t.calls[k].phase).value < t.nextId
      ensures HasDraft(t.store.payments, OwnDraft(t.calls[k].phase).value, t.calls[k].ChargeKey())
    {
      if k == i {
        assert t.store.payments[|st.store.payments|] == p;
      } else {
        PushKeepsDraft(st.store.payments, p, OwnDraft(st.calls[k].phase).value, st.calls[k].ChargeKey());
      }
    }
  }

  lemma RemovalKeepsDraftInv(st: State, t: State, i: nat)
    requires DraftInv(st) && i < |st.calls| && st.calls[i].phase.Removing?
    requires t.nextId == st.nextId && |t.calls| == |st.calls| && t.calls == st.calls[i := t.calls[i]]
    requires OwnDraft(t.calls[i].phase).None? && t.store.payments == WithoutId(st.store.payments, st.calls[i].phase.id)
    ensures DraftInv(t)
  {
    var gone := st.calls[i].phase.id;
    assert OwnDraft(st.calls[i].phase) == Some(gone);
    forall k | 0 <= k < |t.calls| && OwnDraft(t.calls[k].phase).Some?
      ensures HasDraft(t.store.payments, OwnDraft(t.calls[k].phase).value, t.calls[k].ChargeKey())
    {
      assert k != i && t.calls[k] == st.calls[k];
      assert if k < i then OwnDraft(st.calls[k].phase) != OwnDraft(st.calls[i].phase)
             else OwnDraft(st.calls[i].phase) != OwnDraft(st.calls[k].phase);
      RemovalKeepsDraft(st.store.payments, gone, OwnDraft(st.calls[k].phase).value, st.calls[k].ChargeKey());
    }
    forall k | 0 <= k < |t.store.payments|
      ensures t.store.payments[k].id < t.nextId
    {
      assert t.store.payments[k] in st.store.payments;
    }
  }

  lemma QuietKeepsDraftInv(st: State, t: State)
    requires DraftInv(st) && Quiet(st, t)
    ensures DraftInv(t)
  {
    forall k | 0 <= k < |t.calls| && OwnDraft(t.calls[k].phase).Some?
      ensures OwnDraft(t.calls[k].phase).value < t.nextId
      ensures HasDraft(t.store.payments, OwnDraft(t.calls[k].phase).value, t.calls[k].ChargeKey())
    {
      SameKeysKeepDraft(st.store.payments, t.store.payments, OwnDraft(st.calls[k].phase).value, st.calls[k].ChargeKey());
    }
  }

  lemma NextKeepsDraftInv(st: State, step: Step)
    requires DraftInv(st)
    ensures DraftInv(Next(st, step))
  {
    if Pushes(st, step) {
      PushKeepsDraftInv(st, step.call);
    } else if Removes(st, step) {
      RemovalStep(st, step);
      RemovalKeepsDraftInv(st, Next(st, step), step.call);
    } else {
      QuietSteps(st, step);
      QuietKeepsDraftInv(st, Next(st, step));
    }
  }

  lemma {:induction false} EveryRunKeepsDraftInv(steps: seq<Step>)
    ensures DraftInv(Run(steps))
  {
    if steps != [] {
      EveryRunKeepsDraftInv(steps[..|steps| - 1]);
      NextKeepsDraftInv(Run(steps[..|steps| - 1]), steps[|steps| - 1]);
    }
  }

  // ---------------------------------------------------------------- only a refusal removes a draft

  /** The step is a refusal, by a payment error or any other one, of the first provider call for this draft. */
  predicate Refuses(st: State, step: Step, id: nat) {
    && step.Answer? && (step.answer.Rejected? || step.answer.Broken?)
    && step.call < |st.calls| && st.calls[step.call].phase == Calling(id, false)
  }

  predicate RefusedAt(steps: seq<Step>, j: nat, id: nat) {
    j < |steps| && Refuses(Run(steps[..j]), steps[j], id)
  }

  ghost predicate Refused(steps: seq<Step>, id: nat) {
    exists j: nat :: RefusedAt(steps, j, id)
  }

  lemma RefusedStays(steps: seq<Step>, last: Step, id: nat)
    requires Refused(steps, id)
    ensures Refused(steps + [last], id)
  {
    var j: nat :| RefusedAt(steps, j, id);
    assert (steps + [last])[..j] == steps[..j] && (steps + [last])[j] == steps[j];
    assert RefusedAt(steps + [last], j, id);
  }

  /** Whoever is about to remove a draft was refused, and so was the draft of every missing id. */
  ghost predicate GoneWereRefused(steps: seq<Step>) {
    var st := Run(steps);
    && (forall i | 0 <= i < |st.calls| && st.calls[i].phase.Removing? :: Refused(steps, st.calls[i].phase.id))
    && (forall id: nat | id < st.nextId && !HasId(st.store.payments, id) :: Refused(steps, id))
  }

  lemma RemovingComesFrom(st: State, step: Step, i: nat)
    requires i < |Next(st, step).calls| && Next(st, step).calls[i].phase.Removing?
    ensures i < |st.calls|
    ensures st.calls[i].phase == Next(st, step).calls[i].phase
            || (step.Answer? && step.call == i && Refuses(st, step, Next(st, step).calls[i].phase.id))
  {
  }

  lemma IdStays(st: State, step: Step, id: nat)
    requires HasId(st.store.payments, id) && !(Removes(st, step) && st.calls[step.call].phase.id == id)
    ensures HasId(Next(st, step).store.payments, id)
  {
    var was, now := st.store.payments, Next(st, step).store.payments;
    var k :| 0 <= k < |was| && was[k].id == id;
    if Pushes(st, step) {
      assert now[k] == was[k];
    } else if Removes(st, step) {
      RemovalStep(st, step);
      assert was[k] in now;
    } else {
      QuietSteps(st, step);
      assert now[k].id == id;
    }
  }

  lemma PushedIsThere(st: State, step: Step)
    requires Next(st, step).nextId != st.nextId
    ensures Next(st, step).nextId == st.nextId + 1 && HasId(Next(st, step).store.payments, st.nextId)
  {
    if Pushes(st, step) {
      assert Next(st, step).store.payments[|st.store.payments|].id == st.nextId;
    } else if Removes(st, step) {
      RemovalStep(st, step);
    } else {
      QuietSteps(st, step);
    }
  }

  lemma MissingComesFrom(st: State, step: Step, id: nat)
    requires id < Next(st, step).nextId && !HasId(Next(st, step).store.payments, id)
    ensures id < st.nextId
    ensures HasId(st.store.payments, id) ==> Removes(st, step) && st.calls[step.call].phase.id == id
  {
    if Next(st, step).nextId != st.nextId {
      PushedIsThere(st, step);
    }
    if HasId(st.store.payments, id) && !(Removes(st, step) && st.calls[step.call].phase.id == id) {
      IdStays(st, step, id);
    }
  }

  lemma StepKeepsGone(steps: seq<Step>, last: Step)
    requires GoneWereRefused(steps)
    ensures GoneWereRefused(steps + [last])
  {
    var st, all := Run(steps), steps + [last];
    assert all[..|all| - 1] == steps;
    var t := Run(all);
    forall i | 0 <= i < |t.calls| && t.calls[i].phase.Removing?
      ensures Refused(all, t.calls[i].phase.id)
    {
      RemovingComesFrom(st, last, i);
      if st.calls[i].phase == t.calls[i].phase {
        RefusedStays(steps, last, t.calls[i].phase.id);
      } else {
        assert RefusedAt(all, |steps|, t.calls[i].phase.id);
      }
    }
    forall id: nat | id < t.nextId && !HasId(t.store.payments, id)
      ensures Refused(all, id)
    {
      MissingComesFrom(st, last, id);
      RefusedStays(steps, last, id);
    }
  }

  lemma {:induction false} EveryRunKeepsGone(steps: seq<Step>)
    ensures GoneWereRefused(steps)
  {
    if steps != [] {
      EveryRunKeepsGone(steps[..|steps| - 1]);
      StepKeepsGone(steps[..|steps| - 1], steps[|steps| - 1]);
      assert steps[..|steps| - 1] + [steps[|steps| - 1]] == steps;
    }
  }

  /** In every run, a draft that is missing was refused: some step answered its first provider call with a
      rejection or an unexpected error. */
  lemma MissingWasRefused(steps: seq<Step>, id: nat)
    requires id < Run(steps).nextId && !HasId(Run(steps).store.payments, id)
    ensures exists j: nat :: RefusedAt(steps, j, id)
  {
    EveryRunKeepsGone(steps);
    assert Refused(steps, id);
  }

  // ---------------------------------------------------------------- an unknown outcome keeps the draft

  /** The draft is in the store and no call can remove it any more. */
  ghost predicate Settled(st: State, id: nat, providerKey: string) {
    && id < st.nextId && HasDraft(st.store.payments, id, providerKey)
    && forall i | 0 <= i < |st.calls| :: OwnDraft(st.calls[i].phase) != Some(id)
  }

  lemma SettledStays(st: State, step: Step, id: nat, providerKey: string)
    requires Settled(st, id, providerKey)
    ensures Settled(Next(st, step), id, providerKey)
  {
    var t := Next(st, step);
    if Pushes(st, step) {
      PushKeepsDraft(st.store.payments, Payment(st.nextId, st.calls[step.call].ChargeKey(), "processing", None), id, providerKey);
    } else if Removes(st, step) {
      RemovalStep(st, step);
      assert OwnDraft(st.calls[step.call].phase) == Some(st.calls[step.call].phase.id);
      RemovalKeepsDraft(st.store.payments, st.calls[step.call].phase.id, id, providerKey);
    } else {
      QuietSteps(st, step);
      SameKeysKeepDraft(st.store.payments, t.store.payments, id, providerKey);
    }
  }

  lemma {:induction false} SettledStaysInRun(steps: seq<Step>, more: seq<Step>, id: nat, providerKey: string)
    requires Settled(Run(steps), id, providerKey)
    ensures Settled(Run(steps + more), id, providerKey)
  {
    if more == [] {
      assert steps + more == steps;
    } else {
      var init := more[..|more| - 1];
      SettledStaysInRun(steps, init, id, providerKey);
      assert (steps + more)[..|steps + more| - 1] == steps + init;
      SettledStays(Run(steps + init), more[|more| - 1], id, providerKey);
    }
  }

  /** When the outcome of the first provider call is unknown, or a payment, the draft stays for ever, under its
      provider key, whatever happens next. */
  lemma AnsweredDraftStays(steps: seq<Step>, i: nat, id: nat, answer: ProviderReply, more: seq<Step>)
    requires i < |Run(steps).calls| && Run(steps).calls[i].phase == Calling(id, false)
    requires answer.Unknown? || answer.Known?
    ensures HasDraft(Run(steps + [Answer(i, answer)] + more).store.payments, id, Run(steps).calls[i].ChargeKey())
  {
    var st, all := Run(steps), steps + [Answer(i, answer)];
    EveryRunKeepsDraftInv(steps);
    assert all[..|steps|] == steps;
    var t := Run(all);
    assert t.calls == st.calls[i := t.calls[i]] && t.store == st.store && OwnDraft(t.calls[i].phase).None?;
    assert OwnDraft(st.calls[i].phase) == Some(id);
    forall k | 0 <= k < |t.calls|
      ensures OwnDraft(t.calls[k].phase) != Some(id)
    {
      if k < i {
        assert t.calls[k] == st.calls[k] && (OwnDraft(st.calls[k].phase).Some? ==> OwnDraft(st.calls[k].phase) != OwnDraft(st.calls[i].phase));
      } else if k > i {
        assert t.calls[k] == st.calls[k] && OwnDraft(st.calls[i].phase) != OwnDraft(st.calls[k].phase);
      }
    }
    SettledStaysInRun(all, more, id, st.calls[i].ChargeKey());
  }

  /** A later request with the same provider key finds the draft. As long as nothing is known of the payment it
      calls the provider again for this very draft and pushes no other; afterwards it replies what is stored. */
  lemma LaterRequestFindsDraft(steps: seq<Step>, i: nat, k: nat)
    requires i < |Run(steps).calls| && Run(steps).calls[i].phase.Looking?
    requires k < |Run(steps).store.payments| && Run(steps).store.payments[k].providerKey == Run(steps).calls[i].ChargeKey()
    ensures var st, p := Run(steps), Run(steps).store.payments[k];
            var open := p.status == "processing" && p.providerPaymentId.None?;
            Next(st, Lookup(i)) == Move(st, i, if open then Calling(p.id, true) else Finishing(Succeed(Reply(201, p.status))))
  {
    EveryRunKeepsInv(steps);
    var st := Run(steps);
    OnlyOneOfKey(st.store.payments, k);
  }

  lemma {:induction false} OnlyOneOfKey(payments: seq<Payment>, k: nat)
    requires OnePaymentPerKey(payments) && k < |payments|
    ensures FindByKey(payments, payments[k].providerKey) == Some(payments[k])
  {
    if k > 0 {
      assert payments[0].providerKey != payments[k].providerKey;
      assert OnePaymentPerKey(payments[1..]) by {
        assert forall i | 0 <= i < |payments| - 1 :: payments[1..][i] == payments[i + 1];
      }
      OnlyOneOfKey(payments[1..], k - 1);
    }
  }

  // ---------------------------------------------------------------- how an undisturbed call ends

  /** The call has its record and nothing comes in between. */
  predicate Waiting(st: State, i: nat, id: nat, retry: bool) {
    && i < |st.calls| && st.calls[i].phase == Calling(id, retry)
    && st.calls[i].Key() in st.store.idempotency
    && st.store.idempotency[st.calls[i].Key()] == InProgress(st.calls[i].bodyHash)
  }

  /** The call has replied, its record has become `record`, or is gone, and the payments are these. */
  ghost predicate EndedWith(
    st: State, t: State, i: nat, reply: Option<Reply>, record: Option<IdempotencyRecord>, payments: seq<Payment>)
    requires i < |st.calls|
  {
    && t.calls == st.calls[i := st.calls[i].(phase := Done(reply))] && t.nextId == st.nextId
    && t.store.payments == payments
    && t.store.idempotency == if record.Some? then st.store.idempotency[st.calls[i].Key() := record.value]
                              else st.store.idempotency - {st.calls[i].Key()}
  }

  lemma FinishEnds(st: State, i: nat, ending: Ending)
    requires i < |st.calls| && st.calls[i].phase == Finishing(ending)
    requires st.calls[i].Key() in st.store.idempotency
    requires st.store.idempotency[st.calls[i].Key()] == InProgress(st.calls[i].bodyHash)
    ensures var hash := st.calls[i].bodyHash;
            var t := Next(st, Advance(i, true));
            match ending
            case Succeed(r) => EndedWith(st, t, i, Some(r), Some(Completed(hash, r)), st.store.payments)
            case Fail(r) => EndedWith(st, t, i, Some(r), Some(Failed(hash, r)), st.store.payments)
            case Drop => EndedWith(st, t, i, None, None, st.store.payments)
  {
  }

  /** An unknown outcome: the client is told so and the reply is stored, and the payments stay as they are, the
      draft among them. */
  lemma UnknownEnds(st: State, i: nat, id: nat, retry: bool)
    requires Waiting(st, i, id, retry)
    ensures var s1 := Next(st, Answer(i, Unknown));
            var s2 := if retry then s1 else Next(s1, Advance(i, true));
            EndedWith(st, Next(s2, Advance(i, true)), i, Some(OUTCOME_UNKNOWN),
                      Some(Failed(st.calls[i].bodyHash, OUTCOME_UNKNOWN)), st.store.payments)
  {
    var s1 := Next(st, Answer(i, Unknown));
    var s2 := if retry then s1 else Next(s1, Advance(i, true));
    assert s2.calls == st.calls[i := st.calls[i].(phase := Finishing(Fail(OUTCOME_UNKNOWN)))] && s2.store == st.store;
    assert s2.calls[i].Key() == st.calls[i].Key();
    FinishEnds(s2, i, Fail(OUTCOME_UNKNOWN));
  }

  /** A refusal: the error is stored for a payment error and the record is freed for any other one; the draft goes
      when the call had pushed it itself, and stays when it was there before. */
  lemma RefusalEnds(st: State, i: nat, id: nat, retry: bool, error: Option<Reply>)
    requires Waiting(st, i, id, retry)
    ensures var s1 := Next(st, Answer(i, if error.Some? then Rejected(error.value) else Broken));
            var s2 := if retry then s1 else Next(s1, Advance(i, true));
            EndedWith(st, Next(s2, Advance(i, true)), i, error,
                      if error.Some? then Some(Failed(st.calls[i].bodyHash, error.value)) else None,
                      if retry then st.store.payments else WithoutId(st.store.payments, id))
  {
    var ending := if error.Some? then Fail(error.value) else Drop;
    var s1 := Next(st, Answer(i, if error.Some? then Rejected(error.value) else Broken));
    var s2 := if retry then s1 else Next(s1, Advance(i, true));
    assert s2.calls == st.calls[i := st.calls[i].(phase := Finishing(ending))];
    assert s2.calls[i].Key() == st.calls[i].Key() && s2.store.idempotency == st.store.idempotency;
    FinishEnds(s2, i, ending);
  }

  /** A payment: its view is written into the draft and nowhere else, and the reply is stored. */
  lemma KnownEnds(st: State, i: nat, id: nat, retry: bool, view: View, k: nat)
    requires Waiting(st, i, id, retry) && k < |st.store.payments| && st.store.payments[k].id == id
    requires forall j | 0 <= j < k :: st.store.payments[j].id != id
    ensures var s1 := Next(Next(st, Answer(i, Known(view))), Advance(i, true));
            EndedWith(st, Next(Next(s1, Advance(i, true)), Advance(i, true)), i, Some(Reply(201, "payment")),
                      Some(Completed(st.calls[i].bodyHash, Reply(201, "payment"))),
                      st.store.payments[k := st.store.payments[k].(status := view.status, providerPaymentId := Some(view.id))])
  {
    var payments := st.store.payments;
    assert IndexOfId(payments, id) == k;
    var s1 := Next(Next(st, Answer(i, Known(view))), Advance(i, true));
    var viewed := payments[k := payments[k].(status := view.status, providerPaymentId := Some(view.id))];
    assert s1.store.payments == viewed && viewed[k].id == id;
    var s2 := Next(s1, Advance(i, true));
    assert s2.calls == st.calls[i := st.calls[i].(phase := Finishing(Succeed(Reply(201, "payment"))))];
    assert s2.calls[i].Key() == st.calls[i].Key() && s2.store.idempotency == st.store.idempotency;
    FinishEnds(s2, i, Succeed(Reply(201, "payment")));
  }
}
