/** What the policy ledger counts, and which of its limits a refused reservation would break
    (src/mandates/policy.ts). */
module LedgerVerdicts {
  import opened Outcomes
  import opened PolicyLedger

  // ---------------------------------------------------------------- what is counted

  predicate OnSide(e: Entry, side: Side, id: string) {
    (if side == CheckoutSide then e.checkoutId else e.paymentId) == id
  }

  predicate Asked(e: Entry, q: Query) {
    && OnSide(e, q.side, q.id)
    && (q.Since? ==> q.cutoff <= e.at) && (q.Within? ==> q.lo <= e.at <= q.hi)
  }

  /** The reservations that a question is about. */
  ghost function Asking(es: seq<Entry>, q: Query): set<int> {
    set i | 0 <= i < |es| && Asked(es[i], q)
  }

  function Amounts(es: seq<Entry>, side: Side, id: string): seq<nat> {
    if es == [] then [] else Amounts(es[..|es| - 1], side, id) + if OnSide(es[|es| - 1], side, id) then [es[|es| - 1].amount] else []
  }

  function Sum(amounts: seq<nat>): nat {
    if amounts == [] then 0 else Sum(amounts[..|amounts| - 1]) + amounts[|amounts| - 1]
  }

  lemma AskingOfFront(es: seq<Entry>, q: Query)
    requires es != []
    ensures Asking(es, q) == Asking(es[..|es| - 1], q) + if Asked(es[|es| - 1], q) then {|es| - 1} else {}
    ensures |es| - 1 !in Asking(es[..|es| - 1], q)
  {
  }

  /** The measures of the ledger are numbers of reservations, */
  lemma {:induction false} MeasureCounts(es: seq<Entry>, q: Query)
    requires !q.Spent?
    ensures Measure(es, q) == |Asking(es, q)|
  {
    if es == [] {
      assert Asking(es, q) == {};
    } else {
      MeasureCounts(es[..|es| - 1], q);
      AskingOfFront(es, q);
    }
  }

  /** and what is spent is the sum of their amounts. */
  lemma {:induction false} SpentIsSum(es: seq<Entry>, side: Side, id: string)
    ensures Measure(es, Spent(side, id)) == Sum(Amounts(es, side, id))
  {
    if es != [] {
      var front := Amounts(es[..|es| - 1], side, id);
      SpentIsSum(es[..|es| - 1], side, id);
      assert (front + [es[|es| - 1].amount])[..|front|] == front;
      assert front + [] == front;
    }
  }

  /** The limits of one mandate, over the reservations of the ledger: at every time, and in every window. */
  lemma EveryRunWithinCounts(ops: seq<Op>, limits: map<string, Constraints>, side: Side, id: string, lo: int)
    requires forall k | k in limits :: ValidConstraints(limits[k])
    requires forall i | 0 <= i < |ops| :: UsesFrozenLimits(ops[i], limits)
    requires id in limits
    ensures Sum(Amounts(Run([], ops), side, id)) <= limits[id].totalBudgetMinor
    ensures |Asking(Run([], ops), Operations(side, id))| <= limits[id].maxOperations
    ensures |Asking(Run([], ops), Within(side, id, lo, lo + 1000 * limits[id].frequencyWindowSeconds))|
            <= limits[id].maxOperationsPerWindow
  {
    var es := Run([], ops);
    EveryRunWithinLimits(ops, limits, side, id, lo);
    SpentIsSum(es, side, id);
    MeasureCounts(es, Operations(side, id));
    MeasureCounts(es, Within(side, id, lo, lo + limits[id].WindowMs()));
  }

  // ---------------------------------------------------------------- why a reservation is refused

  function IdOn(input: ReserveInput, side: Side): string {
    if side == CheckoutSide then input.checkoutId else input.paymentId
  }

  function LimitsOn(input: ReserveInput, side: Side): Constraints {
    if side == CheckoutSide then input.checkoutLimits else input.paymentLimits
  }

  predicate BudgetBreaks(es: seq<Entry>, input: ReserveInput, side: Side) {
    Sum(Amounts(es, side, IdOn(input, side))) + input.amount > LimitsOn(input, side).totalBudgetMinor
  }

  ghost predicate OperationsBreak(es: seq<Entry>, input: ReserveInput, side: Side) {
    |Asking(es, Operations(side, IdOn(input, side)))| + 1 > LimitsOn(input, side).maxOperations
  }

  /** Reservations whose clock value is later count as well. */
  ghost predicate WindowBreaks(es: seq<Entry>, input: ReserveInput, side: Side)
    requires input.now.Some?
  {
    |Asking(es, Since(side, IdOn(input, side), input.now.value - 1000 * LimitsOn(input, side).frequencyWindowSeconds))| + 1
    > LimitsOn(input, side).maxOperationsPerWindow
  }

  ghost predicate Breaks(es: seq<Entry>, input: ReserveInput, why: Rejection)
    requires input.now.Some?
  {
    match why
    case MandateIdempotency => exists i :: 0 <= i < |es| && es[i].tx == input.tx
    case PolicyBudget(side) => BudgetBreaks(es, input, side)
    case PolicyOperations(side) => OperationsBreak(es, input, side)
    case PolicyFrequency(side) => WindowBreaks(es, input, side)
    case _ => false
  }

  lemma BreaksIff(es: seq<Entry>, input: ReserveInput, side: Side)
    requires ValidInput(input)
    ensures var id, c := IdOn(input, side), LimitsOn(input, side);
            && (Breaks(es, input, PolicyBudget(side)) <==> Measure(es, Spent(side, id)) + input.amount > c.totalBudgetMinor)
            && (Breaks(es, input, PolicyOperations(side)) <==> Measure(es, Operations(side, id)) >= c.maxOperations)
            && (Breaks(es, input, PolicyFrequency(side))
                <==> Measure(es, Since(side, id, input.now.value - c.WindowMs())) >= c.maxOperationsPerWindow)
  {
    var id, c := IdOn(input, side), LimitsOn(input, side);
    SpentIsSum(es, side, id);
    MeasureCounts(es, Operations(side, id));
    MeasureCounts(es, Since(side, id, input.now.value - c.WindowMs()));
  }

  /** The order of the questions: a repeated transaction, the budgets, the operations, the windows; the checkout
      mandate before the payment mandate. */
  function Place(why: Rejection): nat {
    match why
    case MandateIdempotency => 0
    case PolicyBudget(side) => if side == CheckoutSide then 1 else 2
    case PolicyOperations(side) => if side == CheckoutSide then 3 else 4
    case PolicyFrequency(side) => if side == CheckoutSide then 5 else 6
    case _ => 7
  }

  lemma VerdictIsFirst(es: seq<Entry>, input: ReserveInput, why: Rejection)
    requires ValidInput(input) && Breaks(es, input, why)
    ensures Verdict(es, input).Some? && Place(Verdict(es, input).value) <= Place(why)
  {
    BreaksIff(es, input, CheckoutSide);
    BreaksIff(es, input, PaymentSide);
    assert Breaks(es, input, MandateIdempotency) <==> HasTx(es, input.tx);
  }

  lemma VerdictBreaks(es: seq<Entry>, input: ReserveInput)
    requires ValidInput(input) && Verdict(es, input).Some?
    ensures Breaks(es, input, Verdict(es, input).value)
  {
    BreaksIff(es, input, CheckoutSide);
    BreaksIff(es, input, PaymentSide);
    assert Breaks(es, input, MandateIdempotency) <==> HasTx(es, input.tx);
  }

  /** A reservation is accepted exactly when it would break nothing, and a refused one is told the first thing that it
      would break. */
  lemma RefusedForFirst(es: seq<Entry>, input: ReserveInput)
    requires ValidInput(input)
    ensures Verdict(es, input).None? <==> forall why :: !Breaks(es, input, why)
    ensures Verdict(es, input).Some? ==>
              var v := Verdict(es, input).value;
              Breaks(es, input, v) && forall why | Breaks(es, input, why) :: Place(v) <= Place(why)
  {
    if Verdict(es, input).Some? {
      VerdictBreaks(es, input);
    }
    forall why | Breaks(es, input, why)
      ensures Verdict(es, input).Some? && Place(Verdict(es, input).value) <= Place(why)
    {
      VerdictIsFirst(es, input, why);
    }
  }

  /** The numbers that the database columns and JavaScript integers can hold. */
  lemma ValidInputIff(input: ReserveInput)
    ensures ValidInput(input) <==>
              && input.checkoutId != "" && input.paymentId != "" && input.tx != "" && input.now.Some?
              && 0 <= input.amount < 0x20_0000_0000_0000
              && Storable(input.checkoutLimits) && Storable(input.paymentLimits)
  {
  }

  predicate Storable(c: Constraints) {
    && 1 <= c.maxQuantityPerProduct < 0x8000_0000 && 1 <= c.frequencyWindowSeconds < 0x8000_0000
    && 1 <= c.maxOperationsPerWindow <= c.maxOperations < 0x8000_0000
    && 0 <= c.minAmountMinor <= c.maxAmountMinor && 1 <= c.maxAmountMinor < 0x20_0000_0000_0000
    && 0 <= c.totalBudgetMinor < 0x20_0000_0000_0000
  }
}
