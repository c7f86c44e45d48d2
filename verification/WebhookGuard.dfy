/** Inbound payment webhooks: the event guard (src/providers/yuno/payment-event-guard.ts), the status mapping
    (src/providers/yuno/state-mapper.ts) and the section of src/services/payments/payment-service.ts that applies
    an event to a payment. */
module WebhookGuard {
  import opened Outcomes
  import opened Text

  datatype PublicStatus =
    | Created | RequiresUserAction | Processing | Authorized | Succeeded | Declined | Failed | Canceled
    | PartiallyRefunded | Refunded

  /** An absent sub status and an empty one are alike. */
  datatype Snapshot = Snapshot(status: string, sub: string)

  /** A later stage of a payment has a higher rank. */
  function RankOf(s: string, sub: string): nat {
    if s == "DECLINED" || s == "REJECTED" || s == "ERROR" || s == "EXPIRED" then 100
    else if s == "REFUNDED" || sub == "REFUNDED" then 90
    else if sub == "PARTIALLY_REFUNDED" then 80
    else if s == "CANCELED" || s == "CANCELLED" then 55
    else if sub == "PARTIALLY_CAPTURED" then 60
    else if s == "SUCCEEDED" || s == "APPROVED" || s == "CAPTURED" || sub == "CAPTURED" || sub == "APPROVED" then 70
    else if s == "AUTHORIZED" || sub == "AUTHORIZED" then 50
    else if s == "PENDING" then
      if sub == "WAITING_ADDITIONAL_STEP" then 20 else if sub == "IN_PROCESS" || sub == "PENDING" then 30 else 25
    else if s == "CREATED" || s == "READY_TO_PAY" then 10
    else 0
  }

  function Rank(x: Snapshot): nat {
    RankOf(Upper(x.status), Upper(x.sub))
  }

  predicate IsTerminal(status: string) {
    Upper(status) in {"DECLINED", "REJECTED", "ERROR", "EXPIRED", "CANCELED", "CANCELLED", "REFUNDED"}
  }

  datatype Decision = Accepted | DuplicateEvent | SameState | StaleOrOutOfOrder | Unmatched

  function Decide(current: Snapshot, incoming: Snapshot, seen: bool): Decision {
    if seen then DuplicateEvent
    else if current == incoming then SameState
    else if IsTerminal(current.status) then StaleOrOutOfOrder
    else if Rank(incoming) < Rank(current) then StaleOrOutOfOrder
    else if Rank(current) >= 50 && Rank(incoming) <= Rank(current) then StaleOrOutOfOrder
    else Accepted
  }

  function PublicOf(s: string, sub: string): PublicStatus {
    if s == "CREATED" || s == "READY_TO_PAY" then Created
    else if s == "PENDING" || s == "WAITING_ADDITIONAL_STEP" then
      if sub == "WAITING_ADDITIONAL_STEP" then RequiresUserAction
      else if sub == "AUTHORIZED" then Authorized
      else Processing
    else if s == "AUTHORIZED" || sub == "AUTHORIZED" then Authorized
    else if sub == "PARTIALLY_REFUNDED" then PartiallyRefunded
    else if s == "REFUNDED" || sub == "REFUNDED" then Refunded
    else if s == "SUCCEEDED" || s == "APPROVED" || s == "CAPTURED" || sub == "CAPTURED" || sub == "APPROVED" then Succeeded
    else if s == "DECLINED" || s == "REJECTED" then Declined
    else if s == "ERROR" || s == "EXPIRED" then Failed
    else if s == "CANCELED" || s == "CANCELLED" then Canceled
    else Processing
  }

  function MapStatus(x: Snapshot): PublicStatus {
    PublicOf(Upper(x.status), Upper(x.sub))
  }

  /** The public status of a payment, written back as a provider snapshot. */
  function SnapshotOf(p: PublicStatus): Snapshot {
    match p
    case Created => Snapshot("CREATED", "")
    case RequiresUserAction => Snapshot("PENDING", "WAITING_ADDITIONAL_STEP")
    case Processing => Snapshot("PENDING", "IN_PROCESS")
    case Authorized => Snapshot("AUTHORIZED", "AUTHORIZED")
    case Succeeded => Snapshot("SUCCEEDED", "APPROVED")
    case Declined => Snapshot("DECLINED", "")
    case Failed => Snapshot("ERROR", "")
    case Canceled => Snapshot("CANCELED", "")
    case PartiallyRefunded => Snapshot("SUCCEEDED", "PARTIALLY_REFUNDED")
    case Refunded => Snapshot("REFUNDED", "")
  }

  // ---------------------------------------------------------------- applying an event

  /** Amounts in major units with their conversion to minor ones; None where the conversion fails. */
  datatype Amount = Amount(captured: Option<Option<int>>, refunded: Option<Option<int>>, value: Option<Option<int>>)

  datatype Event = Event(id: string, paymentId: string, state: Snapshot, amount: Option<Amount>, refundable: Option<string>)

  datatype Payment = Payment(
    providerId: Option<string>, status: PublicStatus, capturedMinor: int, refundedMinor: int, refundable: Option<string>)

  datatype Audit = Audit(eventId: string, payment: Option<nat>, decision: Decision)

  datatype State = State(payments: seq<Payment>, seen: seq<string>, audit: seq<Audit>)

  function FindPayment(payments: seq<Payment>, id: string, from: nat): (r: Option<nat>)
    ensures r.Some? ==> r.value < |payments|
    decreases |payments| - from
  {
    if id == "" || from >= |payments| then None
    else if payments[from].providerId == Some(id) then Some(from)
    else FindPayment(payments, id, from + 1)
  }

  /** Amounts are taken over in turn; a failing conversion stops there. */
  function WithAmounts(p: Payment, a: Amount): Payment {
    if a.captured == Some(None) then p
    else
      var q := if a.captured.Some? then p.(capturedMinor := a.captured.value.value) else p;
      if a.refunded == Some(None) then q
      else
        var r := if a.refunded.Some? then q.(refundedMinor := a.refunded.value.value) else q;
        if (r.status == Succeeded || r.status == PartiallyRefunded) && r.capturedMinor == 0
           && a.value.Some? && a.value.value.Some?
        then r.(capturedMinor := a.value.value.value) else r
  }

  function Updated(p: Payment, e: Event): Payment {
    var q := p.(status := MapStatus(e.state));
    var r := if e.amount.Some? then WithAmounts(q, e.amount.value) else q;
    if e.refundable.Some? then r.(refundable := e.refundable) else r
  }

  function DecisionFor(st: State, e: Event): Decision {
    var k := FindPayment(st.payments, e.paymentId, 0);
    if e.id in st.seen then DuplicateEvent
    else if k.None? then Unmatched
    else Decide(SnapshotOf(st.payments[k.value].status), e.state, false)
  }

  /** An unmatched event is not marked as seen: it may apply when it is delivered again. */
  function Process(st: State, e: Event): State {
    var k := FindPayment(st.payments, e.paymentId, 0);
    var d := DecisionFor(st, e);
    State(if d == Accepted && k.Some? then st.payments[k.value := Updated(st.payments[k.value], e)] else st.payments,
          if d == DuplicateEvent || d == Unmatched then st.seen else st.seen + [e.id],
          st.audit + [Audit(e.id, if d == DuplicateEvent then None else k, d)])
  }

  class WebhookStore {
    var payments: seq<Payment>
    var seen: seq<string>
    var audit: seq<Audit>

    function Contents(): State
      reads this
    {
      State(payments, seen, audit)
    }

    constructor (payments: seq<Payment>)
      ensures Contents() == State(payments, [], [])
    {
      this.payments, seen, audit := payments, [], [];
    }

    method ApplyEvent(e: Event) returns (decision: Decision)
      modifies this
      ensures decision == DecisionFor(old(Contents()), e)
      ensures Contents() == Process(old(Contents()), e)
    {
      if e.id in seen {
        audit := audit + [Audit(e.id, None, DuplicateEvent)];
        return DuplicateEvent;
      }
      var k := 0;
      while k < |payments| && e.paymentId != "" && payments[k].providerId != Some(e.paymentId)
        invariant 0 <= k <= |payments|
        invariant FindPayment(payments, e.paymentId, 0) == FindPayment(payments, e.paymentId, k)
      {
        k := k + 1;
      }
      if k == |payments| || e.paymentId == "" {
        audit := audit + [Audit(e.id, None, Unmatched)];
        return Unmatched;
      }
      decision := Decide(SnapshotOf(payments[k].status), e.state, e.id in seen);
      if decision == Accepted {
        payments := payments[k := Updated(payments[k], e)];
      }
      seen := seen + [e.id];
      audit := audit + [Audit(e.id, Some(k), decision)];
    }
  }

  // ---------------------------------------------------------------- what an accepted event stores

  /** The amount was given and could be converted; it was given and could not. */
  predicate Converted(x: Option<Option<int>>) { x.Some? && x.value.Some? }
  predicate Unconvertible(x: Option<Option<int>>) { x.Some? && x.value.None? }

  /** The captured amount before the fallback to the full value. */
  function CapturedSoFar(p: Payment, a: Amount): int {
    if Converted(a.captured) then a.captured.value.value else p.capturedMinor
  }

  /** A paid status must not leave nothing captured: then the full value of the payment is. */
  predicate FallsBack(status: PublicStatus, p: Payment, a: Amount) {
    && (status == Succeeded || status == PartiallyRefunded) && CapturedSoFar(p, a) == 0
    && !Unconvertible(a.captured) && !Unconvertible(a.refunded) && Converted(a.value)
  }

  /** The payment an accepted event is about takes over its status, its amounts as far as they convert, and its
      refundable transaction; it stays the payment of the same provider id, and no other payment changes. */
  lemma AcceptedIsStored(st: State, e: Event, k: nat)
    requires FindPayment(st.payments, e.paymentId, 0) == Some(k) && DecisionFor(st, e) == Accepted
    ensures var p, t := st.payments[k], Process(st, e).payments;
            && |t| == |st.payments| && (forall i | 0 <= i < |t| && i != k :: t[i] == st.payments[i])
            && t[k].status == MapStatus(e.state) && t[k].providerId == p.providerId == Some(e.paymentId)
            && t[k].refundable == (if e.refundable.Some? then e.refundable else p.refundable)
            && (e.amount.None? ==> t[k].capturedMinor == p.capturedMinor && t[k].refundedMinor == p.refundedMinor)
            && (e.amount.Some? ==>
                  var a := e.amount.value;
                  && t[k].refundedMinor == (if Converted(a.refunded) && !Unconvertible(a.captured) then a.refunded.value.value
                                            else p.refundedMinor)
                  && t[k].capturedMinor == (if FallsBack(t[k].status, p, a) then a.value.value.value else CapturedSoFar(p, a)))
    ensures e.id in Process(st, e).seen
  {
    FoundIsFirst(st.payments, e.paymentId, 0);
  }

  /** The payment of an event is the first one with its provider id; an event without one is about no payment. */
  lemma FoundIsFirst(payments: seq<Payment>, id: string, from: nat)
    ensures var r := FindPayment(payments, id, from);
            && (r.Some? ==> from <= r.value < |payments| && payments[r.value].providerId == Some(id)
                            && forall i | from <= i < r.value :: payments[i].providerId != Some(id))
            && (r.None? <==> id == "" || forall i | from <= i < |payments| :: payments[i].providerId != Some(id))
    decreases |payments| - from
  {
    if from < |payments| {
      FoundIsFirst(payments, id, from + 1);
    }
  }

  // ---------------------------------------------------------------- ranks of stored statuses

  predicate Final(p: PublicStatus) {
    p == Declined || p == Failed || p == Canceled || p == Refunded
  }

  function PublicRank(p: PublicStatus): nat {
    match p
    case Created => 10
    case RequiresUserAction => 20
    case Processing => 30
    case Authorized => 50
    case Canceled => 55
    case Succeeded => 70
    case PartiallyRefunded => 80
    case Refunded => 90
    case Declined => 100
    case Failed => 100
  }

  lemma StatusIsUpper(p: PublicStatus)
    ensures Upper(SnapshotOf(p).status) == SnapshotOf(p).status
  {
    assert IsUpper(SnapshotOf(p).status);
    UpperKeeps(SnapshotOf(p).status);
  }

  lemma SubIsUpper(p: PublicStatus)
    ensures Upper(SnapshotOf(p).sub) == SnapshotOf(p).sub
  {
    LongSubsAreUpper();
    assert IsUpper("IN_PROCESS") && IsUpper("AUTHORIZED") && IsUpper("APPROVED") && IsUpper("");
    UpperKeeps(SnapshotOf(p).sub);
  }

  lemma LongSubsAreUpper()
    ensures IsUpper("WAITING_ADDITIONAL_STEP") && IsUpper("PARTIALLY_REFUNDED") && IsUpper("PARTIALLY_CAPTURED")
  {
  }

  lemma SnapshotRank(p: PublicStatus)
    ensures RankOf(SnapshotOf(p).status, SnapshotOf(p).sub) == PublicRank(p)
  {
  }

  lemma SnapshotMaps(p: PublicStatus)
    ensures PublicOf(SnapshotOf(p).status, SnapshotOf(p).sub) == p
  {
  }

  lemma SnapshotTerminal(p: PublicStatus)
    ensures IsTerminal(SnapshotOf(p).status) <==> Final(p)
  {
    StatusIsUpper(p);
  }

  /** A stored status is read back as itself, with its own rank, and is final exactly when its snapshot is
      terminal. */
  lemma SnapshotRoundTrip(p: PublicStatus)
    ensures MapStatus(SnapshotOf(p)) == p && Rank(SnapshotOf(p)) == PublicRank(p)
    ensures IsTerminal(SnapshotOf(p).status) <==> Final(p)
  {
    StatusIsUpper(p);
    SubIsUpper(p);
    SnapshotRank(p);
    SnapshotMaps(p);
    SnapshotTerminal(p);
  }

  // ---------------------------------------------------------------- which events may apply

  ghost predicate MayApply(p: PublicStatus, x: Snapshot) {
    Decide(SnapshotOf(p), x, false) == Accepted
  }

  lemma MayApplyIff(p: PublicStatus, x: Snapshot)
    ensures MayApply(p, x) <==> SnapshotOf(p) != x && !Final(p) && PublicRank(p) <= Rank(x)
                                && (PublicRank(p) >= 50 ==> PublicRank(p) < Rank(x))
  {
    SnapshotRoundTrip(p);
  }

  /** The latest status an event of this rank can replace. */
  function LatestReplaced(rank: nat): PublicStatus {
    if rank > 80 then PartiallyRefunded
    else if rank > 70 then Succeeded
    else if rank > 50 then Authorized
    else if rank >= 30 then Processing
    else if rank >= 20 then RequiresUserAction
    else Created
  }

  lemma LatestOfRank(p: PublicStatus, rank: nat)
    requires !Final(p) && PublicRank(p) <= rank && (PublicRank(p) >= 50 ==> PublicRank(p) < rank)
    ensures PublicRank(p) <= PublicRank(LatestReplaced(rank)) && rank >= 10
  {
  }

  lemma LatestReplacedIsLatest(p: PublicStatus, x: Snapshot)
    requires MayApply(p, x)
    ensures PublicRank(p) <= PublicRank(LatestReplaced(Rank(x))) && Rank(x) >= 10
    ensures PublicRank(p) >= 50 ==> Rank(x) > 50
  {
    MayApplyIff(p, x);
    LatestOfRank(p, Rank(x));
  }

  predicate KeepsRank(x: Snapshot) {
    Rank(x) >= 10 ==> PublicRank(LatestReplaced(Rank(x))) <= PublicRank(MapStatus(x))
  }

  predicate Advances(x: Snapshot) {
    Rank(x) > 50 ==> PublicRank(LatestReplaced(Rank(x))) < PublicRank(MapStatus(x))
  }

  /** A pair of status and sub status never lowers the rank of any payment it is applied to, exactly when its
      public status ranks no lower than the latest one its own rank lets it replace. */
  lemma RankKeptIff(x: Snapshot)
    ensures (forall p | MayApply(p, x) :: PublicRank(p) <= PublicRank(MapStatus(x))) <==> KeepsRank(x)
  {
    if KeepsRank(x) {
      forall p | MayApply(p, x)
        ensures PublicRank(p) <= PublicRank(MapStatus(x))
      {
        LatestReplacedIsLatest(p, x);
      }
    } else {
      var p := LatestReplaced(Rank(x));
      MayApplyIff(p, x);
      SnapshotRoundTrip(p);
      assert MayApply(p, x);
    }
  }

  /** From authorized on it raises the rank of every payment it is applied to, exactly when the inequality is
      strict. */
  lemma RankRaisedIff(x: Snapshot)
    ensures (forall p | MayApply(p, x) && PublicRank(p) >= 50 :: PublicRank(p) < PublicRank(MapStatus(x)))
            <==> Advances(x)
  {
    if Advances(x) {
      forall p | MayApply(p, x) && PublicRank(p) >= 50
        ensures PublicRank(p) < PublicRank(MapStatus(x))
      {
        LatestReplacedIsLatest(p, x);
      }
    } else {
      var p := LatestReplaced(Rank(x));
      MayApplyIff(p, x);
      SnapshotRoundTrip(p);
      assert MayApply(p, x);
    }
  }

  /** The pairs of a payment whose money has moved, or that has ended. */
  predicate Settled(x: Snapshot) {
    (x.status, x.sub) in {
      ("SUCCEEDED", "PARTIALLY_CAPTURED"), ("SUCCEEDED", "CAPTURED"), ("SUCCEEDED", "PARTIALLY_REFUNDED"),
      ("REFUNDED", "REFUNDED"), ("CANCELED", "CANCELED"), ("DECLINED", "DECLINED"), ("REJECTED", "REJECTED"),
      ("ERROR", "ERROR"), ("EXPIRED", "EXPIRED")}
  }

  /** The pairs of a payment on its way there. */
  predicate Underway(x: Snapshot) {
    (x.status, x.sub) in {
      ("CREATED", ""), ("READY_TO_PAY", ""), ("PENDING", "WAITING_ADDITIONAL_STEP"), ("PENDING", "IN_PROCESS"),
      ("AUTHORIZED", "AUTHORIZED"), ("SUCCEEDED", "APPROVED")}
  }

  /** The pairs the documentation of the provider names. */
  predicate Documented(x: Snapshot) {
    Settled(x) || Underway(x)
  }

  lemma SettledStatusIsUpper(x: Snapshot)
    requires Settled(x)
    ensures Upper(x.status) == x.status
  {
    assert IsUpper(x.status);
    UpperKeeps(x.status);
  }

  lemma SettledSubIsUpper(x: Snapshot)
    requires Settled(x)
    ensures Upper(x.sub) == x.sub
  {
    LongSubsAreUpper();
    assert x.sub != "PARTIALLY_CAPTURED" && x.sub != "PARTIALLY_REFUNDED" ==> IsUpper(x.sub);
    UpperKeeps(x.sub);
  }

  lemma UnderwayStatusIsUpper(x: Snapshot)
    requires Underway(x)
    ensures Upper(x.status) == x.status
  {
    assert IsUpper(x.status);
    UpperKeeps(x.status);
  }

  lemma UnderwaySubIsUpper(x: Snapshot)
    requires Underway(x)
    ensures Upper(x.sub) == x.sub
  {
    LongSubsAreUpper();
    assert x.sub != "WAITING_ADDITIONAL_STEP" ==> IsUpper(x.sub);
    UpperKeeps(x.sub);
  }

  /** The rank of the guard and the status of the mapping, side by side. */
  predicate RanksAgree(r: nat, p: PublicStatus) {
    && (r >= 10 ==> PublicRank(LatestReplaced(r)) <= PublicRank(p))
    && (r > 50 ==> PublicRank(LatestReplaced(r)) < PublicRank(p))
  }

  lemma SettledRanks(x: Snapshot)
    requires Settled(x)
    ensures RanksAgree(RankOf(x.status, x.sub), PublicOf(x.status, x.sub))
  {
  }

  lemma UnderwayRanks(x: Snapshot)
    requires Underway(x)
    ensures RanksAgree(RankOf(x.status, x.sub), PublicOf(x.status, x.sub))
  {
  }

  /** Every documented pair keeps ranks, and raises them from authorized on. */
  lemma DocumentedPairsAdvance(x: Snapshot)
    requires Documented(x)
    ensures KeepsRank(x) && Advances(x)
  {
    if Settled(x) {
      SettledStatusIsUpper(x);
      SettledSubIsUpper(x);
      SettledRanks(x);
    } else {
      UnderwayStatusIsUpper(x);
      UnderwaySubIsUpper(x);
      UnderwayRanks(x);
    }
  }

  /** An undocumented pair the guard and the mapping disagree on: it takes an authorized payment back to
      processing. */
  lemma PendingCapturedRewinds()
    ensures MayApply(Authorized, Snapshot("PENDING", "CAPTURED"))
    ensures MapStatus(Snapshot("PENDING", "CAPTURED")) == Processing
  {
    assert IsUpper("PENDING") && IsUpper("CAPTURED");
    UpperKeeps("PENDING");
    UpperKeeps("CAPTURED");
    MayApplyIff(Authorized, Snapshot("PENDING", "CAPTURED"));
  }

  // ---------------------------------------------------------------- runs

  function Deliver(st: State, es: seq<Event>): State {
    if es == [] then st else Process(Deliver(st, es[..|es| - 1]), es[|es| - 1])
  }

  function StatusOf(st: State, k: nat): PublicStatus {
    if k < |st.payments| then st.payments[k].status else Created
  }

  /** Whether the event is applied to this payment. */
  predicate AppliesTo(st: State, e: Event, k: nat) {
    DecisionFor(st, e) == Accepted && FindPayment(st.payments, e.paymentId, 0) == Some(k)
  }

  lemma OneEvent(st: State, e: Event, k: nat)
    ensures |Process(st, e).payments| == |st.payments|
    ensures !AppliesTo(st, e, k) && k < |st.payments| ==> Process(st, e).payments[k] == st.payments[k]
    ensures AppliesTo(st, e, k) ==> k < |st.payments| && MayApply(StatusOf(st, k), e.state)
                                    && StatusOf(Process(st, e), k) == MapStatus(e.state)
  {
  }

  lemma {:induction false} DeliverKeepsLength(st: State, es: seq<Event>)
    ensures |Deliver(st, es).payments| == |st.payments|
  {
    if es != [] {
      DeliverKeepsLength(st, es[..|es| - 1]);
      OneEvent(Deliver(st, es[..|es| - 1]), es[|es| - 1], 0);
    }
  }

  /** An event that has been seen changes no payment, whatever it says now. */
  lemma SeenEventChangesNothing(st: State, e: Event)
    requires e.id in st.seen
    ensures Process(st, e).payments == st.payments && Process(st, e).seen == st.seen
  {
  }

  /** Final statuses absorb every event, documented or not. */
  lemma {:induction false} FinalStatusesAbsorb(st: State, es: seq<Event>, k: nat)
    requires k < |st.payments| && Final(st.payments[k].status)
    ensures k < |Deliver(st, es).payments| && Deliver(st, es).payments[k] == st.payments[k]
  {
    if es != [] {
      var before := Deliver(st, es[..|es| - 1]);
      FinalStatusesAbsorb(st, es[..|es| - 1], k);
      OneEvent(before, es[|es| - 1], k);
      if AppliesTo(before, es[|es| - 1], k) {
        MayApplyIff(StatusOf(before, k), es[|es| - 1].state);
      }
    }
  }

  /** Duplicates, reordering and all: the stored rank never goes down on pairs that keep ranks. */
  lemma {:induction false} RankNeverDecreases(st: State, es: seq<Event>, k: nat)
    requires forall i | 0 <= i < |es| :: KeepsRank(es[i].state)
    ensures PublicRank(StatusOf(st, k)) <= PublicRank(StatusOf(Deliver(st, es), k))
  {
    if es != [] {
      var before, e := Deliver(st, es[..|es| - 1]), es[|es| - 1];
      RankNeverDecreases(st, es[..|es| - 1], k);
      OneEvent(before, e, k);
      if AppliesTo(before, e, k) {
        RankKeptIff(e.state);
      }
    }
  }

  /** How many of the events are applied to one payment. */
  function AppliedCount(st: State, es: seq<Event>, k: nat): nat {
    if es == [] then 0
    else
      var init := es[..|es| - 1];
      AppliedCount(st, init, k) + if AppliesTo(Deliver(st, init), es[|es| - 1], k) then 1 else 0
  }

  function StagesLeft(p: PublicStatus): nat {
    if p == Authorized then 3 else if p == Succeeded then 2 else if p == PartiallyRefunded then 1 else 0
  }

  lemma StagesShrink(p: PublicStatus, x: Snapshot)
    requires PublicRank(p) >= 50 && MayApply(p, x) && Advances(x)
    ensures PublicRank(MapStatus(x)) > PublicRank(p) && StagesLeft(MapStatus(x)) < StagesLeft(p)
  {
    LatestReplacedIsLatest(p, x);
    MayApplyIff(p, x);
  }

  /** Once a payment is authorized, at most three further events are ever applied to it. */
  lemma {:induction false} AtMostThreeAfterAuthorized(st: State, es: seq<Event>, k: nat)
    requires k < |st.payments| && PublicRank(st.payments[k].status) >= 50
    requires forall i | 0 <= i < |es| :: Advances(es[i].state)
    ensures PublicRank(StatusOf(Deliver(st, es), k)) >= 50
    ensures AppliedCount(st, es, k) + StagesLeft(StatusOf(Deliver(st, es), k)) <= StagesLeft(st.payments[k].status) <= 3
  {
    if es != [] {
      var before, e := Deliver(st, es[..|es| - 1]), es[|es| - 1];
      AtMostThreeAfterAuthorized(st, es[..|es| - 1], k);
      OneEvent(before, e, k);
      if AppliesTo(before, e, k) {
        StagesShrink(StatusOf(before, k), e.state);
      } else {
        DeliverKeepsLength(st, es[..|es| - 1]);
      }
    }
  }

  /** Events that were applied are seen, and no two entries of the audit apply the same event. */
  ghost predicate AuditInv(st: State) {
    && (forall i | 0 <= i < |st.audit| && st.audit[i].decision == Accepted :: st.audit[i].eventId in st.seen)
    && (forall i, j | 0 <= i < j < |st.audit| && st.audit[i].decision == Accepted && st.audit[j].decision == Accepted ::
          st.audit[i].eventId != st.audit[j].eventId)
  }

  lemma {:induction false} EachEventAppliedOnce(payments: seq<Payment>, es: seq<Event>)
    ensures AuditInv(Deliver(State(payments, [], []), es))
  {
    if es != [] {
      EachEventAppliedOnce(payments, es[..|es| - 1]);
    }
  }
}
