/** How a request ends under the provider's idempotency (yuno_mock/src/idempotency/primitive.ts): the first one of its
    key charges once and leaves its result, and a later one is told what became of the first. */
module ProviderHandlers {
  import opened Outcomes
  import opened Text
  import opened ProviderIdempotency

  /** A request that may begin: its key is not blank and has no record. */
  predicate Free(st: State, k: (string, string)) {
    Trim(k.1) != "" && k !in st.records
  }

  function Held(st: State, k: (string, string)): State {
    Next(Next(st, Deliver(k)), Begin(|st.handlers|))
  }

  lemma FreeIsHeld(st: State, k: (string, string))
    requires Free(st, k)
    ensures Held(st, k) == State(st.records[k := InProgress], st.handlers + [Handler(k, Holding)], st.charges)
  {
    var h := |st.handlers|;
    assert (st.handlers + [Handler(k, Arrived)])[h := Handler(k, Holding)] == st.handlers + [Handler(k, Holding)];
  }

  /** The first request of a key charges once, and its response, or the fact that there is none, stays on record. */
  lemma ChargedEnds(st: State, k: (string, string), response: Option<Response>)
    requires Free(st, k)
    ensures var h := |st.handlers|;
            var charged := Next(Held(st, k), Charge(h));
            Next(charged, if response.Some? then Complete(h, response.value) else Consume(h))
            == State(st.records[k := if response.Some? then Completed(response.value) else ConsumedWithoutResult],
                     st.handlers + [Handler(k, Ended)], st.charges + [k])
  {
    var h := |st.handlers|;
    FreeIsHeld(st, k);
    var charged := Next(Held(st, k), Charge(h));
    assert charged.handlers == st.handlers + [Handler(k, Charged)];
    assert (st.handlers + [Handler(k, Charged)])[h := Handler(k, Ended)] == st.handlers + [Handler(k, Ended)];
  }

  /** One that fails before it charges leaves its key as free as it was; one that knows its result without a charge
      leaves it on record. */
  lemma UnchargedEnds(st: State, k: (string, string), response: Response)
    requires Free(st, k)
    ensures var h, ended := |st.handlers|, st.handlers + [Handler(k, Ended)];
            && Next(Held(st, k), Abandon(h)) == State(st.records, ended, st.charges)
            && Next(Held(st, k), Complete(h, response)) == State(st.records[k := Completed(response)], ended, st.charges)
            && Next(Held(st, k), Consume(h)) == State(st.records[k := ConsumedWithoutResult], ended, st.charges)
  {
    var h := |st.handlers|;
    FreeIsHeld(st, k);
    assert (st.handlers + [Handler(k, Holding)])[h := Handler(k, Ended)] == st.handlers + [Handler(k, Ended)];
    assert st.records[k := InProgress] - {k} == st.records;
  }

  /** A request with a blank key, or whose key has a record, ends at once, and nothing is charged or recorded. */
  lemma OtherEndsAtOnce(st: State, k: (string, string))
    requires !Free(st, k)
    ensures Held(st, k) == State(st.records, st.handlers + [Handler(k, Ended)], st.charges)
  {
    var h := |st.handlers|;
    assert (st.handlers + [Handler(k, Arrived)])[h := Handler(k, Ended)] == st.handlers + [Handler(k, Ended)];
  }

  /** A closed record is never changed again, whatever happens. */
  lemma {:induction false} ClosedStays(steps: seq<Step>, more: seq<Step>, k: (string, string))
    requires k in Run(steps).records && Run(steps).records[k] != InProgress
    ensures k in Run(steps + more).records && Run(steps + more).records[k] == Run(steps).records[k]
  {
    if more == [] {
      assert steps + more == steps;
    } else {
      var init := more[..|more| - 1];
      ClosedStays(steps, init, k);
      AtMostOneCharge(steps + init, k);
      assert (steps + more)[..|steps + more| - 1] == steps + init;
    }
  }

  /** What a later request is told: while the first is in progress that it is, and for ever after it has ended with a
      charge its very response, or that the key is used up. A blank key is refused. */
  lemma LaterIsTold(steps: seq<Step>, more: seq<Step>, k: (string, string))
    requires k in Run(steps).records && Trim(k.1) != ""
    ensures var r := Run(steps).records[k];
            match r
            case InProgress => Begun(Run(steps).records, k) == StillInProgress
            case Completed(response) => Begun(Run(steps + more).records, k) == Replay(response)
            case ConsumedWithoutResult => Begun(Run(steps + more).records, k) == AlreadyConsumed
    ensures forall scope, blank | Trim(blank) == "" :: Begun(Run(steps).records, (scope, blank)) == EmptyKey
  {
    if Run(steps).records[k] != InProgress {
      ClosedStays(steps, more, k);
    }
  }
}
