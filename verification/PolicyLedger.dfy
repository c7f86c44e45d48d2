/** The mandate policy ledger of src/mandates/policy.ts: reservations against the total budget, the
    operation count and the sliding frequency window of two open mandates at once. */
module PolicyLedger {
  import opened Outcomes

  const SQL_INTEGER_MAX: int := 2_147_483_647
  const MAX_SAFE_INTEGER: int := 9_007_199_254_740_991

  datatype Constraints = Constraints(
    merchantIds: seq<string>,
    payeeIds: seq<string>,
    productIds: Option<seq<string>>,
    supplierIds: Option<seq<string>>,
    maxQuantityPerProduct: int,
    minAmountMinor: int,
    maxAmountMinor: int,
    currency: string,
    totalBudgetMinor: int,
    maxOperations: int,
    frequencyWindowSeconds: int,
    maxOperationsPerWindow: int,
    paymentInstrumentAlias: string,
    allowedPisp: Option<string>)
  {
    function WindowMs(): int {
      frequencyWindowSeconds * 1000
    }
  }

  predicate SafeInteger(value: int, minimum: int) {
    minimum <= value <= MAX_SAFE_INTEGER
  }

  predicate SqlPositive(value: int) {
    1 <= value <= SQL_INTEGER_MAX
  }

  predicate ValidConstraints(c: Constraints) {
    && SqlPositive(c.maxQuantityPerProduct)
    && SafeInteger(c.minAmountMinor, 0)
    && SafeInteger(c.maxAmountMinor, 1)
    && SafeInteger(c.totalBudgetMinor, 0)
    && SqlPositive(c.maxOperations)
    && SqlPositive(c.frequencyWindowSeconds)
    && SqlPositive(c.maxOperationsPerWindow)
    && c.minAmountMinor <= c.maxAmountMinor
    && c.maxOperationsPerWindow <= c.maxOperations
  }

  /** Every reservation counts against a checkout mandate and against a payment mandate. */
  datatype Side = CheckoutSide | PaymentSide

  datatype Entry = Entry(tx: string, amount: nat, at: int, checkoutId: string, paymentId: string) {
    function On(side: Side): string {
      match side
      case CheckoutSide => checkoutId
      case PaymentSide => paymentId
    }
  }

  /** `now` is in milliseconds; None is a clock that is not a valid Date. */
  datatype ReserveInput = ReserveInput(
    checkoutId: string,
    paymentId: string,
    tx: string,
    amount: int,
    now: Option<int>,
    checkoutLimits: Constraints,
    paymentLimits: Constraints)

  predicate ValidInput(input: ReserveInput) {
    && input.checkoutId != "" && input.paymentId != "" && input.tx != ""
    && SafeInteger(input.amount, 0)
    && input.now.Some?
    && ValidConstraints(input.checkoutLimits)
    && ValidConstraints(input.paymentLimits)
  }

  datatype Rejection =
    | PolicyInput
    | MandateIdempotency
    | PolicyBudget(side: Side)
    | PolicyOperations(side: Side)
    | PolicyFrequency(side: Side)
    | PolicyReservation

  // ---------------------------------------------------------------- measures over the ledger

  /** What can be asked of the reservations of one mandate; the answer is a sum of entry weights. */
  datatype Query =
    | Spent(side: Side, id: string)
    | Operations(side: Side, id: string)
    | Since(side: Side, id: string, cutoff: int)
    | Within(side: Side, id: string, lo: int, hi: int)

  function Weight(e: Entry, q: Query): nat {
    if e.On(q.side) != q.id then 0
    else
      match q
      case Spent(_, _) => e.amount
      case Operations(_, _) => 1
      case Since(_, _, cutoff) => if e.at >= cutoff then 1 else 0
      case Within(_, _, lo, hi) => if lo <= e.at <= hi then 1 else 0
  }

  function Measure(es: seq<Entry>, q: Query): nat {
    if es == [] then 0 else Measure(es[..|es| - 1], q) + Weight(es[|es| - 1], q)
  }

  predicate HasTx(es: seq<Entry>, tx: string) {
    exists i :: 0 <= i < |es| && es[i].tx == tx
  }

  predicate DistinctTx(es: seq<Entry>) {
    forall i, j :: 0 <= i < j < |es| ==> es[i].tx != es[j].tx
  }

  function Without(es: seq<Entry>, tx: string): seq<Entry> {
    if es == [] then []
    else
      var front := Without(es[..|es| - 1], tx);
      if es[|es| - 1].tx == tx then front else front + [es[|es| - 1]]
  }

  // ---------------------------------------------------------------- the two ledger operations

  function Verdict(es: seq<Entry>, input: ReserveInput): Option<Rejection>
    requires ValidInput(input)
  {
    var now := input.now.value;
    if HasTx(es, input.tx) then Some(MandateIdempotency)
    else if Measure(es, Spent(CheckoutSide, input.checkoutId)) + input.amount > input.checkoutLimits.totalBudgetMinor then
      Some(PolicyBudget(CheckoutSide))
    else if Measure(es, Spent(PaymentSide, input.paymentId)) + input.amount > input.paymentLimits.totalBudgetMinor then
      Some(PolicyBudget(PaymentSide))
    else if Measure(es, Operations(CheckoutSide, input.checkoutId)) >= input.checkoutLimits.maxOperations then
      Some(PolicyOperations(CheckoutSide))
    else if Measure(es, Operations(PaymentSide, input.paymentId)) >= input.paymentLimits.maxOperations then
      Some(PolicyOperations(PaymentSide))
    else if Measure(es, Since(CheckoutSide, input.checkoutId, now - input.checkoutLimits.WindowMs()))
            >= input.checkoutLimits.maxOperationsPerWindow then
      Some(PolicyFrequency(CheckoutSide))
    else if Measure(es, Since(PaymentSide, input.paymentId, now - input.paymentLimits.WindowMs()))
            >= input.paymentLimits.maxOperationsPerWindow then
      Some(PolicyFrequency(PaymentSide))
    else None
  }

  function Reservation(input: ReserveInput): Entry
    requires ValidInput(input)
  {
    Entry(input.tx, input.amount, input.now.value, input.checkoutId, input.paymentId)
  }

  function Reserved(es: seq<Entry>, input: ReserveInput): seq<Entry> {
    if ValidInput(input) && Verdict(es, input).None? then es + [Reservation(input)] else es
  }

  function Headroom(es: seq<Entry>, side: Side, id: string, c: Constraints): int {
    c.totalBudgetMinor - Measure(es, Spent(side, id))
  }

  class InMemoryMandatePolicyLedger {
    /** The `reservations` Map in insertion order. */
    var reservations: seq<Entry>

    constructor ()
      ensures reservations == []
    {
      reservations := [];
    }

    /** One `lock.then` section. The remaining budget of an accepted reservation is the smaller headroom
        of the two mandates after it, and the branch that rejects an unsafe remainder never runs. */
    method Reserve(input: ReserveInput) returns (r: Result<int, Rejection>)
      modifies this
      ensures reservations == Reserved(old(reservations), input)
      ensures !ValidInput(input) ==> r == Err(PolicyInput)
      ensures ValidInput(input) && Verdict(old(reservations), input).Some?
              ==> r == Err(Verdict(old(reservations), input).value)
      ensures r.Ok? <==> reservations != old(reservations)
      ensures r.Ok? ==>
                && r.value <= Headroom(reservations, CheckoutSide, input.checkoutId, input.checkoutLimits)
                && r.value <= Headroom(reservations, PaymentSide, input.paymentId, input.paymentLimits)
                && (r.value == Headroom(reservations, CheckoutSide, input.checkoutId, input.checkoutLimits)
                    || r.value == Headroom(reservations, PaymentSide, input.paymentId, input.paymentLimits))
                && SafeInteger(r.value, 0)
    {
      if !ValidInput(input) {
        return Err(PolicyInput);
      }
      var verdict := Verdict(reservations, input);
      if verdict.Some? {
        return Err(verdict.value);
      }
      var before := reservations;
      reservations := reservations + [Reservation(input)];
      assert reservations[..|reservations| - 1] == before;
      var checkoutRemaining :=
        input.checkoutLimits.totalBudgetMinor - Measure(before, Spent(CheckoutSide, input.checkoutId)) - input.amount;
      var paymentRemaining :=
        input.paymentLimits.totalBudgetMinor - Measure(before, Spent(PaymentSide, input.paymentId)) - input.amount;
      var remaining := if checkoutRemaining < paymentRemaining then checkoutRemaining else paymentRemaining;
      if !SafeInteger(remaining, 0) {
        return Err(PolicyReservation);
      }
      return Ok(remaining);
    }

    method Release(tx: string)
      modifies this
      ensures reservations == Without(old(reservations), tx)
    {
      reservations := Without(reservations, tx);
    }
  }

  // ---------------------------------------------------------------- what every run keeps

  /** The prefix property behind the sliding window: when an entry was added, fewer than the limit of the
      entries before it lay no earlier than one window before it. */
  ghost predicate WindowKept(es: seq<Entry>, side: Side, id: string, c: Constraints) {
    if es == [] then true
    else
      var front, last := es[..|es| - 1], es[|es| - 1];
      && WindowKept(front, side, id, c)
      && (last.On(side) == id ==> Measure(front, Since(side, id, last.at - c.WindowMs())) < c.maxOperationsPerWindow)
  }

  ghost predicate LimitsKept(es: seq<Entry>, side: Side, id: string, c: Constraints) {
    && Measure(es, Spent(side, id)) <= c.totalBudgetMinor
    && Measure(es, Operations(side, id)) <= c.maxOperations
    && WindowKept(es, side, id, c)
  }

  /** `limits` gives each open mandate its constraints, frozen when it was created. */
  ghost predicate LedgerInv(es: seq<Entry>, limits: map<string, Constraints>) {
    && DistinctTx(es)
    && (forall id | id in limits :: ValidConstraints(limits[id]))
    && (forall side, id | id in limits :: LimitsKept(es, side, id, limits[id]))
  }

  lemma {:induction false} MeasureWithout(es: seq<Entry>, tx: string, q: Query)
    ensures Measure(Without(es, tx), q) <= Measure(es, q)
  {
    if es != [] {
      var front, last := es[..|es| - 1], es[|es| - 1];
      MeasureWithout(front, tx, q);
      if last.tx != tx {
        assert Without(es, tx)[..|Without(es, tx)| - 1] == Without(front, tx);
      }
    }
  }

  lemma {:induction false} WindowKeptWithout(es: seq<Entry>, tx: string, side: Side, id: string, c: Constraints)
    requires WindowKept(es, side, id, c)
    ensures WindowKept(Without(es, tx), side, id, c)
  {
    if es != [] {
      var front, last := es[..|es| - 1], es[|es| - 1];
      WindowKeptWithout(front, tx, side, id, c);
      if last.tx != tx {
        assert Without(es, tx)[..|Without(es, tx)| - 1] == Without(front, tx);
        MeasureWithout(front, tx, Since(side, id, last.at - c.WindowMs()));
      }
    }
  }

  /** Removing a transaction removes that entry and nothing else. */
  lemma {:induction false} WithoutRemoves(es: seq<Entry>, tx: string)
    ensures forall e :: e in Without(es, tx) <==> e in es && e.tx != tx
    ensures DistinctTx(es) ==> DistinctTx(Without(es, tx))
    ensures !HasTx(es, tx) ==> Without(es, tx) == es
  {
    if es != [] {
      var front, last := es[..|es| - 1], es[|es| - 1];
      WithoutRemoves(front, tx);
      assert es == front + [last];
      assert forall e :: e in es <==> e in front || e == last;
      if !HasTx(es, tx) {
        assert !HasTx(front, tx);
      }
      if DistinctTx(es) {
        assert DistinctTx(front);
        RestIsDistinct(front, Without(front, tx), last);
      }
    }
  }

  /** Releasing an accepted reservation gives back the ledger before it, order included. */
  lemma ReleaseUndoesReserve(es: seq<Entry>, input: ReserveInput)
    requires ValidInput(input) && Verdict(es, input).None?
    ensures Without(Reserved(es, input), input.tx) == es
  {
    WithoutRemoves(es, input.tx);
    assert Reserved(es, input)[..|es|] == es;
  }

  lemma RestIsDistinct(front: seq<Entry>, rest: seq<Entry>, last: Entry)
    requires DistinctTx(front + [last]) && DistinctTx(rest) && forall e :: e in rest ==> e in front
    ensures DistinctTx(rest + [last])
  {
    forall i | 0 <= i < |rest|
      ensures rest[i].tx != last.tx
    {
      assert rest[i] in front;
      var k :| 0 <= k < |front| && front[k] == rest[i];
      assert (front + [last])[k].tx != (front + [last])[|front|].tx;
    }
  }

  lemma ReserveKeepsLimits(es: seq<Entry>, input: ReserveInput, limits: map<string, Constraints>, side: Side, id: string)
    requires LedgerInv(es, limits) && id in limits
    requires ValidInput(input) && Verdict(es, input).None?
    requires input.checkoutId in limits && input.checkoutLimits == limits[input.checkoutId]
    requires input.paymentId in limits && input.paymentLimits == limits[input.paymentId]
    ensures LimitsKept(Reserved(es, input), side, id, limits[id])
  {
    var next := Reserved(es, input);
    assert next[..|next| - 1] == es && next[|next| - 1] == Reservation(input);
    assert LimitsKept(es, side, id, limits[id]);
  }

  lemma ReserveKeepsInv(es: seq<Entry>, input: ReserveInput, limits: map<string, Constraints>)
    requires LedgerInv(es, limits)
    requires input.checkoutId in limits && input.checkoutLimits == limits[input.checkoutId]
    requires input.paymentId in limits && input.paymentLimits == limits[input.paymentId]
    ensures LedgerInv(Reserved(es, input), limits)
  {
    if ValidInput(input) && Verdict(es, input).None? {
      forall side, id | id in limits
        ensures LimitsKept(Reserved(es, input), side, id, limits[id])
      {
        ReserveKeepsLimits(es, input, limits, side, id);
      }
    }
  }

  /** The ledger refuses exactly the reservations that would break a limit or repeat a transaction. */
  lemma RefusesExactlyWhatWouldBreak(es: seq<Entry>, input: ReserveInput, limits: map<string, Constraints>)
    requires LedgerInv(es, limits) && ValidInput(input)
    requires input.checkoutId in limits && input.checkoutLimits == limits[input.checkoutId]
    requires input.paymentId in limits && input.paymentLimits == limits[input.paymentId]
    ensures Verdict(es, input).None? <==> LedgerInv(es + [Reservation(input)], limits)
  {
    var next := es + [Reservation(input)];
    assert next[..|next| - 1] == es && next[|next| - 1] == Reservation(input);
    if LedgerInv(next, limits) {
      assert LimitsKept(next, CheckoutSide, input.checkoutId, limits[input.checkoutId]);
      assert LimitsKept(next, PaymentSide, input.paymentId, limits[input.paymentId]);
      assert forall i | 0 <= i < |es| :: next[i].tx != next[|es|].tx;
    } else if Verdict(es, input).None? {
      ReserveKeepsInv(es, input, limits);
    }
  }

  lemma ReleaseKeepsInv(es: seq<Entry>, tx: string, limits: map<string, Constraints>)
    requires LedgerInv(es, limits)
    ensures LedgerInv(Without(es, tx), limits)
  {
    WithoutRemoves(es, tx);
    forall side, id | id in limits
      ensures LimitsKept(Without(es, tx), side, id, limits[id])
    {
      assert LimitsKept(es, side, id, limits[id]);
      MeasureWithout(es, tx, Spent(side, id));
      MeasureWithout(es, tx, Operations(side, id));
      WindowKeptWithout(es, tx, side, id, limits[id]);
    }
  }

  lemma {:induction false} WithinAtMostSince(es: seq<Entry>, side: Side, id: string, lo: int, hi: int, cutoff: int)
    requires cutoff <= lo
    ensures Measure(es, Within(side, id, lo, hi)) <= Measure(es, Since(side, id, cutoff))
  {
    if es != [] {
      WithinAtMostSince(es[..|es| - 1], side, id, lo, hi, cutoff);
    }
  }

  /** The sliding window: every closed interval as long as the window holds at most the window limit of
      live reservations, whatever the order of their clock values. */
  lemma {:induction false} EveryWindowWithinLimit(es: seq<Entry>, side: Side, id: string, c: Constraints, lo: int)
    requires WindowKept(es, side, id, c) && 0 <= c.maxOperationsPerWindow
    ensures Measure(es, Within(side, id, lo, lo + c.WindowMs())) <= c.maxOperationsPerWindow
  {
    if es != [] {
      var front, last := es[..|es| - 1], es[|es| - 1];
      var hi := lo + c.WindowMs();
      if last.On(side) == id && lo <= last.at <= hi {
        WithinAtMostSince(front, side, id, lo, hi, last.at - c.WindowMs());
      } else {
        EveryWindowWithinLimit(front, side, id, c, lo);
      }
    }
  }

  // ---------------------------------------------------------------- runs

  datatype Op = ReserveOp(input: ReserveInput) | ReleaseOp(tx: string)

  function Apply(es: seq<Entry>, op: Op): seq<Entry> {
    match op
    case ReserveOp(input) => Reserved(es, input)
    case ReleaseOp(tx) => Without(es, tx)
  }

  function Run(es: seq<Entry>, ops: seq<Op>): seq<Entry> {
    if ops == [] then es else Apply(Run(es, ops[..|ops| - 1]), ops[|ops| - 1])
  }

  ghost predicate UsesFrozenLimits(op: Op, limits: map<string, Constraints>) {
    op.ReserveOp? ==>
      && op.input.checkoutId in limits && op.input.checkoutLimits == limits[op.input.checkoutId]
      && op.input.paymentId in limits && op.input.paymentLimits == limits[op.input.paymentId]
  }

  lemma {:induction false} RunKeepsInv(ops: seq<Op>, limits: map<string, Constraints>)
    requires forall k | k in limits :: ValidConstraints(limits[k])
    requires forall i | 0 <= i < |ops| :: UsesFrozenLimits(ops[i], limits)
    ensures LedgerInv(Run([], ops), limits)
  {
    if ops != [] {
      RunKeepsInv(ops[..|ops| - 1], limits);
      ApplyKeepsInv(Run([], ops[..|ops| - 1]), ops[|ops| - 1], limits);
    }
  }

  lemma ApplyKeepsInv(es: seq<Entry>, op: Op, limits: map<string, Constraints>)
    requires LedgerInv(es, limits) && UsesFrozenLimits(op, limits)
    ensures LedgerInv(Apply(es, op), limits)
  {
    match op
    case ReserveOp(input) => ReserveKeepsInv(es, input, limits);
    case ReleaseOp(tx) => ReleaseKeepsInv(es, tx, limits);
  }

  /** Over every run of reservations and releases, with any clock values, each mandate stays within its
      budget, its operation count and its limit in every window. */
  lemma EveryRunWithinLimits(ops: seq<Op>, limits: map<string, Constraints>, side: Side, id: string, lo: int)
    requires forall k | k in limits :: ValidConstraints(limits[k])
    requires forall i | 0 <= i < |ops| :: UsesFrozenLimits(ops[i], limits)
    requires id in limits
    ensures Measure(Run([], ops), Spent(side, id)) <= limits[id].totalBudgetMinor
    ensures Measure(Run([], ops), Operations(side, id)) <= limits[id].maxOperations
    ensures Measure(Run([], ops), Within(side, id, lo, lo + limits[id].WindowMs())) <= limits[id].maxOperationsPerWindow
  {
    RunKeepsInv(ops, limits);
    KeptIsWithinLimits(Run([], ops), limits, side, id, lo);
  }

  lemma KeptIsWithinLimits(es: seq<Entry>, limits: map<string, Constraints>, side: Side, id: string, lo: int)
    requires LedgerInv(es, limits) && id in limits
    ensures Measure(es, Spent(side, id)) <= limits[id].totalBudgetMinor
    ensures Measure(es, Operations(side, id)) <= limits[id].maxOperations
    ensures Measure(es, Within(side, id, lo, lo + limits[id].WindowMs())) <= limits[id].maxOperationsPerWindow
  {
    assert LimitsKept(es, side, id, limits[id]);
    EveryWindowWithinLimit(es, side, id, limits[id], lo);
  }
}
