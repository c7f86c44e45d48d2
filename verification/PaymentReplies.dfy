/** What a request is answered at its arrival (src/services/payments/payment-service.ts:147-225): the first of its key
    runs, a repeated one gets the reply that the first one was given, and an error in between frees the key. */
module PaymentReplies {
  import opened Outcomes
  import opened Text
  import opened CanonicalJson
  import opened PaymentService
  import opened PaymentOutcomes

  /** The request is answered at once, and nothing else happens. */
  ghost predicate AnsweredAtOnce(st: State, actor: string, rawKey: string, bodyHash: Digest, reply: Reply) {
    Next(st, Arrive(actor, rawKey, bodyHash)) == st.(calls := st.calls + [Call(actor, rawKey, bodyHash, Done(Some(reply)))])
  }

  /** The request runs, and its key is taken. */
  ghost predicate Runs(st: State, actor: string, rawKey: string, bodyHash: Digest) {
    var t := Next(st, Arrive(actor, rawKey, bodyHash));
    && t.calls == st.calls + [Call(actor, rawKey, bodyHash, Running)] && t.nextId == st.nextId
    && t.store.payments == st.store.payments
    && t.store.idempotency == st.store.idempotency[IdemKey(actor, Trim(rawKey)) := InProgress(bodyHash)]
  }

  lemma BlankKeyIsRefused(st: State, actor: string, rawKey: string, bodyHash: Digest)
    requires ':' !in actor && Trim(rawKey) == ""
    ensures AnsweredAtOnce(st, actor, rawKey, bodyHash, KEY_REQUIRED)
  {
  }

  lemma FreshKeyRuns(st: State, actor: string, rawKey: string, bodyHash: Digest)
    requires ':' !in actor && Trim(rawKey) != "" && IdemKey(actor, Trim(rawKey)) !in st.store.idempotency
    ensures Runs(st, actor, rawKey, bodyHash)
  {
  }

  /** While a call is in flight, no other request of its key runs. */
  lemma InFlightIsRefused(steps: seq<Step>, i: nat, rawKey: string, bodyHash: Digest)
    requires i < |Run(steps).calls| && Run(steps).calls[i].InFlight()
    requires Trim(rawKey) == Trim(Run(steps).calls[i].rawKey) && Trim(rawKey) != ""
    ensures var c := Run(steps).calls[i];
            AnsweredAtOnce(Run(steps), c.actor, rawKey, bodyHash, if bodyHash == c.bodyHash then IN_PROGRESS else KEY_REUSED)
  {
    EveryRunKeepsInv(steps);
    assert Owns(Run(steps).calls[i], Run(steps).store.idempotency);
  }

  lemma {:induction false} RecordStays(steps: seq<Step>, more: seq<Step>, key: string)
    requires Finished(Run(steps).store.idempotency, key)
    ensures Finished(Run(steps + more).store.idempotency, key)
    ensures Run(steps + more).store.idempotency[key] == Run(steps).store.idempotency[key]
  {
    if more == [] {
      assert steps + more == steps;
    } else {
      var init, last := more[..|more| - 1], more[|more| - 1];
      RecordStays(steps, init, key);
      EveryRunKeepsInv(steps + init);
      assert (steps + more)[..|steps + more| - 1] == steps + init;
      StoredReplyIsFinal(Run(steps + init), last, key, Run(steps).store.idempotency[key].bodyHash);
    }
  }

  /** Once a call has given its reply, every later request of its key is answered at once, whatever has happened in
      between: with this very reply when its body is the same, and with the conflict when it is another. */
  lemma SameRequestSameReply(steps: seq<Step>, i: nat, reply: Reply, more: seq<Step>, rawKey: string, bodyHash: Digest)
    requires i < |Run(steps).calls| && Run(steps).calls[i].phase in {Finishing(Succeed(reply)), Finishing(Fail(reply))}
    requires Trim(rawKey) == Trim(Run(steps).calls[i].rawKey) && Trim(rawKey) != ""
    ensures Run(steps + [Advance(i, true)]).calls[i].phase == Done(Some(reply))
    ensures var c := Run(steps).calls[i];
            AnsweredAtOnce(Run(steps + [Advance(i, true)] + more), c.actor, rawKey, bodyHash,
                           if bodyHash == c.bodyHash then reply else KEY_REUSED)
  {
    var st, all := Run(steps), steps + [Advance(i, true)];
    var c := st.calls[i];
    EveryRunKeepsInv(steps);
    assert Owns(c, st.store.idempotency);
    assert all[..|steps|] == steps;
    FinishEnds(st, i, c.phase.ending);
    RecordStays(all, more, c.Key());
  }

  /** A call that ends without a reply frees its key, so the next request of it runs. */
  lemma DroppedKeyRuns(steps: seq<Step>, i: nat, rawKey: string, bodyHash: Digest)
    requires i < |Run(steps).calls| && Run(steps).calls[i].phase == Finishing(Drop)
    requires Trim(rawKey) == Trim(Run(steps).calls[i].rawKey) && Trim(rawKey) != ""
    ensures Runs(Next(Run(steps), Advance(i, true)), Run(steps).calls[i].actor, rawKey, bodyHash)
  {
    var st := Run(steps);
    EveryRunKeepsInv(steps);
    assert Owns(st.calls[i], st.store.idempotency);
    FinishEnds(st, i, Drop);
    FreshKeyRuns(Next(st, Advance(i, true)), st.calls[i].actor, rawKey, bodyHash);
  }

  /** An error in any section between the checks and the reply: a payment error is stored as the reply and any other
      one frees the key; the payments are as they were when it was thrown. */
  lemma ThrowEnds(steps: seq<Step>, i: nat, error: Option<Reply>)
    requires i < |Run(steps).calls| && Run(steps).calls[i].InFlight()
    requires var ph := Run(steps).calls[i].phase; !ph.Running? && !ph.Calling? && (ph.Finishing? ==> ph.ending.Succeed?)
    ensures var st := Run(steps);
            EndedWith(st, Next(Next(st, Throw(i, error)), Advance(i, true)), i, error,
                      if error.Some? then Some(Failed(st.calls[i].bodyHash, error.value)) else None, st.store.payments)
  {
    var st := Run(steps);
    EveryRunKeepsInv(steps);
    assert Owns(st.calls[i], st.store.idempotency);
    var ending := if error.Some? then Fail(error.value) else Drop;
    var s1 := Next(st, Throw(i, error));
    assert s1.calls == st.calls[i := st.calls[i].(phase := Finishing(ending))] && s1.store == st.store;
    assert s1.calls[i].Key() == st.calls[i].Key();
    FinishEnds(s1, i, ending);
  }
}
