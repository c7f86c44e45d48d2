/** The life of one call of createAutonomousClosedMandates (src/mandates/autonomy.ts:411-559): what it was let in
    with, when its reservation is accepted, and how it ends. */
module ClosedCalls {
  import opened Outcomes
  import Ledger = PolicyLedger
  import opened OpenMandates
  import opened PolicyEvaluation
  import opened ClosedMandates

  /** The mandate is active and in its window, and the caller is the one it names. */
  predicate Accessible(records: Records, q: AccessRequest, now: int) {
    && q.id in records && SkewOk(q.clockSkewMs)
    && var m := records[q.id];
    && m.status == Active && m.terms.issuedAt <= now < m.terms.expiresAt
    && m.terms.userReference == q.userReference && m.terms.agentId == q.agentId
    && m.terms.tenantId == q.tenantId && m.terms.audience == q.audience
    && m.activationProof.Some? && m.activationProof.value.activatedAt <= now + SkewOf(q.clockSkewMs)
  }

  lemma AccessibleIff(records: Records, q: AccessRequest, now: int)
    requires RecordsInv(records)
    ensures Accessible(records, q, now) <==> AuthorizedActive(records, q, now).Ok?
    ensures Accessible(records, q, now) ==> AuthorizedActive(records, q, now) == Ok(records[q.id])
  {
    AccessDecidedByStateAndCaller(records, q, now);
    if q.id in records {
      assert RecordInv(records[q.id], q.id);
    }
  }

  /** Everything that is asked before a call may reserve. */
  ghost predicate MayBegin(records: Records, step: Step) {
    && step.Start? && step.trusted && step.request.checkout.transactionId == step.tx
    && Accessible(records, step.checkoutAccess, step.request.now)
    && Accessible(records, step.paymentAccess, step.request.now)
    && var c, p := records[step.checkoutAccess.id], records[step.paymentAccess.id];
    && c.terms.kind == CheckoutKind && p.terms.kind == PaymentKind
    && Permits(step.request, c) && Permits(step.request, p)
  }

  /** A call gets as far as reserving exactly when the agent is trusted, the checkout is about its transaction, the
      two mandates are of the two kinds and accessible to the caller, and both permit the request; it carries copies
      of exactly these two. */
  lemma BeginsIff(records: Records, step: Step)
    requires RecordsInv(records) && step.Start?
    ensures Begin(records, step).Some? <==> MayBegin(records, step)
    ensures MayBegin(records, step) ==>
              Begin(records, step).value
              == Call(step.request, step.tx, records[step.checkoutAccess.id], records[step.paymentAccess.id], Permitted)
  {
    AccessibleIff(records, step.checkoutAccess, step.request.now);
    AccessibleIff(records, step.paymentAccess, step.request.now);
  }

  /** And then it is the last of the calls; otherwise nothing happens. */
  lemma StartAddsCall(steps: seq<Step>, step: Step)
    requires step.Start?
    ensures var st := Run(steps);
            Next(st, step)
            == if MayBegin(st.records, step)
               then st.(calls := st.calls + [Call(step.request, step.tx, st.records[step.checkoutAccess.id],
                                                  st.records[step.paymentAccess.id], Permitted)])
               else st
  {
    EveryRunKeepsInv(steps);
    BeginsIff(Run(steps).records, step);
  }

  // ---------------------------------------------------------------- where a call comes from

  /** The step starts a call with this request and transaction under these two mandates. */
  ghost predicate Starts(records: Records, step: Step, c: Call) {
    && MayBegin(records, step) && c.request == step.request && c.tx == step.tx
    && c.checkout == records[step.checkoutAccess.id] && c.payment == records[step.paymentAccess.id]
  }

  ghost predicate StartedAt(steps: seq<Step>, j: nat, c: Call) {
    j < |steps| && Starts(Run(steps[..j]).records, steps[j], c)
  }

  ghost predicate Started(steps: seq<Step>, c: Call) {
    exists j: nat :: StartedAt(steps, j, c)
  }

  lemma StartedStays(steps: seq<Step>, last: Step, c: Call, d: Call)
    requires Started(steps, c)
    requires d.request == c.request && d.tx == c.tx && d.checkout == c.checkout && d.payment == c.payment
    ensures Started(steps + [last], d)
  {
    var j: nat :| StartedAt(steps, j, c);
    assert (steps + [last])[..j] == steps[..j] && (steps + [last])[j] == steps[j];
    assert StartedAt(steps + [last], j, d);
  }

  lemma CallsComeFrom(st: State, step: Step, i: nat)
    requires i < |Next(st, step).calls|
    ensures var d := Next(st, step).calls[i];
            if i < |st.calls| then
              var c := st.calls[i];
              d.request == c.request && d.tx == c.tx && d.checkout == c.checkout && d.payment == c.payment
            else step.Start? && Begin(st.records, step) == Some(d)
  {
  }

  /** In every run, every call was started by a step at which the agent was trusted, both mandates were accessible to
      the caller and permitted the request, and the checkout was about the call's transaction. */
  lemma {:induction false} EveryCallWasStarted(steps: seq<Step>, i: nat)
    requires i < |Run(steps).calls|
    ensures exists j: nat :: StartedAt(steps, j, Run(steps).calls[i])
    decreases |steps|
  {
    var init, last := steps[..|steps| - 1], steps[|steps| - 1];
    var st := Run(init);
    assert init + [last] == steps;
    CallsComeFrom(st, last, i);
    if i < |st.calls| {
      EveryCallWasStarted(init, i);
      assert Started(init, st.calls[i]);
      StartedStays(init, last, st.calls[i], Run(steps).calls[i]);
    } else {
      EveryRunKeepsInv(init);
      BeginsIff(st.records, last);
      assert StartedAt(steps, |init|, Run(steps).calls[i]);
    }
    assert Started(steps, Run(steps).calls[i]);
  }

  // ---------------------------------------------------------------- how a call goes on

  /** A permitted call may have its reservation. */
  ghost predicate Reservable(st: State, i: nat) {
    && CallIn(st, i, Permitted) && Ledger.ValidInput(st.calls[i].Input())
    && Ledger.LedgerInv(st.ledger + [Ledger.Reservation(st.calls[i].Input())], Limits(st.records))
  }

  /** In every run, a permitted call reserves exactly when its inputs are valid and every limit of the two mandates
      would still hold with it: then the ledger gains this one reservation and the call goes on to sign. Otherwise
      the call has failed and the ledger is as before. */
  lemma ReservesIff(steps: seq<Step>, i: nat)
    requires CallIn(Run(steps), i, Permitted)
    ensures var st := Run(steps);
            Next(st, Reserve(i)) ==
              if Reservable(st, i) then Move(st, i, Signing).(ledger := st.ledger + [Ledger.Reservation(st.calls[i].Input())])
              else Move(st, i, Failed)
  {
    EveryRunKeepsInv(steps);
    var st := Run(steps);
    assert CallKnown(st.calls[i], st.records);
    if Ledger.ValidInput(st.calls[i].Input()) {
      Ledger.RefusesExactlyWhatWouldBreak(st.ledger, st.calls[i].Input(), Limits(st.records));
    }
  }

  /** What is to be reserved is the total of the checkout, at the time of the request, for this transaction and under
      these two mandates with their own constraints. */
  lemma ReservesItsOwn(c: Call)
    ensures var input := c.Input();
            && input.tx == c.tx && input.amount == c.request.checkout.totals.totalMinor && input.now == Some(c.request.now)
            && input.checkoutId == c.checkout.id && input.paymentId == c.payment.id
            && input.checkoutLimits == c.checkout.terms.constraints && input.paymentLimits == c.payment.terms.constraints
    ensures Ledger.ValidInput(c.Input()) ==>
              Ledger.Reservation(c.Input())
              == Ledger.Entry(c.tx, c.request.checkout.totals.totalMinor, c.request.now, c.checkout.id, c.payment.id)
  {
  }

  /** In every run the inputs of a call are valid exactly when its transaction and mandates have names and its total is
      one that JavaScript can hold: the limits of a created mandate always are. */
  lemma InputIsValidIff(steps: seq<Step>, i: nat)
    requires i < |Run(steps).calls|
    ensures var c := Run(steps).calls[i];
            Ledger.ValidInput(c.Input()) <==>
              c.tx != "" && c.checkout.id != "" && c.payment.id != ""
              && 0 <= c.request.checkout.totals.totalMinor <= 9_007_199_254_740_991
  {
    EveryRunKeepsInv(steps);
    var st := Run(steps);
    var c := st.calls[i];
    assert CallKnown(c, st.records);
    assert RecordInv(st.records[c.checkout.id], c.checkout.id) && RecordInv(st.records[c.payment.id], c.payment.id);
  }

  /** A call whose closed mandates are signed and verified returns them, and keeps its reservation; one that fails
      there gives exactly its own reservation back before it fails. */
  lemma SigningEnds(st: State, i: nat)
    requires CallIn(st, i, Signing)
    ensures Next(st, SignOk(i)) == Move(st, i, Returned)
    ensures Next(Next(st, SignFail(i)), Release(i)) == Move(st, i, Failed).(ledger := Ledger.Without(st.ledger, st.calls[i].tx))
  {
    var s1 := Next(st, SignFail(i));
    assert s1 == Move(st, i, Releasing);
    assert s1.calls[i := s1.calls[i].(phase := Failed)] == st.calls[i := st.calls[i].(phase := Failed)];
  }

  lemma ReservedCallReturns(begun: State, i: nat)
    requires CallIn(begun, i, Permitted) && Ledger.ValidInput(begun.calls[i].Input())
    requires Next(begun, Reserve(i))
             == Move(begun, i, Signing).(ledger := begun.ledger + [Ledger.Reservation(begun.calls[i].Input())])
    ensures Next(Next(begun, Reserve(i)), SignOk(i))
            == Move(begun, i, Returned).(ledger := begun.ledger + [Ledger.Reservation(begun.calls[i].Input())])
  {
    var s2 := Next(begun, Reserve(i));
    SigningEnds(s2, i);
    assert s2.calls[i := s2.calls[i].(phase := Returned)] == begun.calls[i := begun.calls[i].(phase := Returned)];
  }

  /** So an undisturbed call that may begin and may reserve returns its closed mandates, with its reservation. */
  lemma PermittedCallReturns(steps: seq<Step>, step: Step)
    requires MayBegin(Run(steps).records, step) && Reservable(Next(Run(steps), step), |Run(steps).calls|)
    ensures var i, begun := |Run(steps).calls|, Next(Run(steps), step);
            Next(Next(begun, Reserve(i)), SignOk(i))
            == Move(begun, i, Returned).(ledger := begun.ledger + [Ledger.Reservation(begun.calls[i].Input())])
    ensures Next(Run(steps), step).ledger == Run(steps).ledger
  {
    var i, begun := |Run(steps).calls|, Next(Run(steps), step);
    StartAddsCall(steps, step);
    assert (steps + [step])[..|steps|] == steps;
    assert Run(steps + [step]) == begun;
    ReservesIff(steps + [step], i);
    ReservedCallReturns(begun, i);
  }

  // ---------------------------------------------------------------- the limits, in terms of the returned pairs

  predicate PaidUnder(c: Call, side: Ledger.Side, id: string) {
    c.phase == Returned && (if side == Ledger.CheckoutSide then c.checkout.id else c.payment.id) == id
  }

  /** The returned pairs under one mandate, between two times when these are given. */
  predicate PaidBetween(c: Call, side: Ledger.Side, id: string, span: Option<(int, int)>) {
    PaidUnder(c, side, id) && (span.Some? ==> span.value.0 <= c.request.now <= span.value.1)
  }

  ghost function Paid(calls: seq<Call>, side: Ledger.Side, id: string, span: Option<(int, int)>): set<int> {
    set i | 0 <= i < |calls| && PaidBetween(calls[i], side, id, span)
  }

  function PaidTotal(calls: seq<Call>, side: Ledger.Side, id: string): int {
    if calls == [] then 0
    else
      PaidTotal(calls[..|calls| - 1], side, id)
      + if PaidUnder(calls[|calls| - 1], side, id) then calls[|calls| - 1].request.checkout.totals.totalMinor else 0
  }

  function QueryOf(side: Ledger.Side, id: string, span: Option<(int, int)>): Ledger.Query {
    if span.Some? then Ledger.Within(side, id, span.value.0, span.value.1) else Ledger.Operations(side, id)
  }

  ghost predicate ReturnedAreValid(calls: seq<Call>) {
    forall i | 0 <= i < |calls| && calls[i].phase == Returned :: Ledger.ValidInput(calls[i].Input())
  }

  lemma PaidOfFront(calls: seq<Call>, side: Ledger.Side, id: string, span: Option<(int, int)>)
    requires calls != []
    ensures var n := |calls| - 1;
            && Paid(calls, side, id, span)
               == Paid(calls[..n], side, id, span) + (if PaidBetween(calls[n], side, id, span) then {n} else {})
            && n !in Paid(calls[..n], side, id, span)
  {
  }

  lemma WeightOfCall(c: Call, side: Ledger.Side, id: string, span: Option<(int, int)>)
    requires c.phase == Returned ==> Ledger.ValidInput(c.Input())
    ensures ReturnedWeight(c, QueryOf(side, id, span)) == if PaidBetween(c, side, id, span) then 1 else 0
    ensures ReturnedWeight(c, Ledger.Spent(side, id))
            == if PaidUnder(c, side, id) then c.request.checkout.totals.totalMinor else 0
  {
  }

  lemma {:induction false} MeasureCountsPaid(calls: seq<Call>, side: Ledger.Side, id: string, span: Option<(int, int)>)
    requires ReturnedAreValid(calls)
    ensures ReturnedMeasure(calls, QueryOf(side, id, span)) == |Paid(calls, side, id, span)|
  {
    if calls == [] {
      assert Paid(calls, side, id, span) == {};
    } else {
      MeasureCountsPaid(calls[..|calls| - 1], side, id, span);
      PaidOfFront(calls, side, id, span);
      WeightOfCall(calls[|calls| - 1], side, id, span);
    }
  }

  lemma {:induction false} MeasureSumsPaid(calls: seq<Call>, side: Ledger.Side, id: string)
    requires ReturnedAreValid(calls)
    ensures ReturnedMeasure(calls, Ledger.Spent(side, id)) == PaidTotal(calls, side, id)
  {
    if calls != [] {
      MeasureSumsPaid(calls[..|calls| - 1], side, id);
      WeightOfCall(calls[|calls| - 1], side, id, None);
    }
  }

  lemma RunReturnsValid(steps: seq<Step>)
    ensures ReturnedAreValid(Run(steps).calls)
  {
    EveryRunKeepsInv(steps);
    var st := Run(steps);
    forall i | 0 <= i < |st.calls| && st.calls[i].phase == Returned
      ensures Ledger.ValidInput(st.calls[i].Input())
    {
      assert CallKnown(st.calls[i], st.records);
    }
  }

  lemma MeasuredIsPaid(calls: seq<Call>, side: Ledger.Side, id: string, c: Ledger.Constraints, lo: int)
    requires ReturnedAreValid(calls) && WithinLimits(calls, c, side, id, lo)
    ensures PaidTotal(calls, side, id) <= c.totalBudgetMinor
    ensures |Paid(calls, side, id, None)| <= c.maxOperations
    ensures |Paid(calls, side, id, Some((lo, lo + 1000 * c.frequencyWindowSeconds)))| <= c.maxOperationsPerWindow
  {
    MeasureSumsPaid(calls, side, id);
    MeasureCountsPaid(calls, side, id, None);
    MeasureCountsPaid(calls, side, id, Some((lo, lo + c.WindowMs())));
  }

  /** In every run the pairs that were returned under a mandate cost no more in all than its budget, are no more than
      its operations, and no more than its limit in any window, by the times of their requests. */
  lemma ReturnedPairsWithinLimits(steps: seq<Step>, side: Ledger.Side, id: string, lo: int)
    requires id in Run(steps).records
    ensures var calls, c := Run(steps).calls, Run(steps).records[id].terms.constraints;
            && PaidTotal(calls, side, id) <= c.totalBudgetMinor
            && |Paid(calls, side, id, None)| <= c.maxOperations
            && |Paid(calls, side, id, Some((lo, lo + 1000 * c.frequencyWindowSeconds)))| <= c.maxOperationsPerWindow
  {
    VerifiedPaymentsWithinLimits(steps, side, id, lo);
    RunReturnsValid(steps);
    MeasuredIsPaid(Run(steps).calls, side, id, Run(steps).records[id].terms.constraints, lo);
  }
}
