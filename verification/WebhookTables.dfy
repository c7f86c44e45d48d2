/** The two tables of the payment webhooks by name: what rank a pair of status and sub status has
    (src/providers/yuno/payment-event-guard.ts:18-57), what public status it maps to
    (src/providers/yuno/state-mapper.ts:23-57), and which pairs the two disagree on. */
module WebhookTables {
  import opened Outcomes
  import opened Text
  import opened WebhookGuard

  const FAILING := {"DECLINED", "REJECTED", "ERROR", "EXPIRED"}
  const CANCELING := {"CANCELED", "CANCELLED"}
  const PAID := {"SUCCEEDED", "APPROVED", "CAPTURED"}
  const NEW := {"CREATED", "READY_TO_PAY"}

  /** Refunds outweigh everything but a failure, a cancellation everything but these, and a capture the rest. */
  predicate Refunding(s: string, sub: string) {
    s == "REFUNDED" || sub == "REFUNDED" || sub == "PARTIALLY_REFUNDED"
  }

  predicate Capturing(s: string, sub: string) {
    s in PAID || sub in {"CAPTURED", "APPROVED", "PARTIALLY_CAPTURED"}
  }

  lemma RankByName(s: string, sub: string)
    ensures var r := RankOf(s, sub);
            && (r == 100 <==> s in FAILING)
            && (r in {80, 90} <==> s !in FAILING && Refunding(s, sub))
            && (r == 90 <==> s !in FAILING && (s == "REFUNDED" || sub == "REFUNDED"))
            && (r == 55 <==> s in CANCELING && !Refunding(s, sub))
            && (r in {60, 70} <==> s !in FAILING + CANCELING && !Refunding(s, sub) && Capturing(s, sub))
            && (r == 60 <==> s !in FAILING + CANCELING && !Refunding(s, sub) && sub == "PARTIALLY_CAPTURED")
            && (r == 50 <==> s !in FAILING + CANCELING && !Refunding(s, sub) && !Capturing(s, sub)
                             && (s == "AUTHORIZED" || sub == "AUTHORIZED"))
  {
  }

  /** Before anything is authorized only the status decides, and how far a pending payment is. */
  predicate Early(s: string, sub: string) {
    s !in FAILING + CANCELING && !Refunding(s, sub) && !Capturing(s, sub) && s != "AUTHORIZED" && sub != "AUTHORIZED"
  }

  lemma EarlyRankByName(s: string, sub: string)
    ensures var r := RankOf(s, sub);
            && (r < 50 <==> Early(s, sub))
            && (Early(s, sub) ==>
                  && (r == 20 <==> s == "PENDING" && sub == "WAITING_ADDITIONAL_STEP")
                  && (r == 30 <==> s == "PENDING" && sub in {"IN_PROCESS", "PENDING"})
                  && (r == 25 <==> s == "PENDING" && sub !in {"WAITING_ADDITIONAL_STEP", "IN_PROCESS", "PENDING"})
                  && (r == 10 <==> s in NEW) && (r == 0 <==> s != "PENDING" && s !in NEW))
  {
  }

  const WAITING := {"PENDING", "WAITING_ADDITIONAL_STEP"}

  /** The mapping looks at new and pending statuses first, then for an authorization, refunds, captures, failures and
      cancellations; the guard looks for these in another order. */
  lemma PublicByName(s: string, sub: string)
    ensures var p := PublicOf(s, sub);
            && (s in NEW ==> p == Created)
            && (s in WAITING ==> p == if sub == "WAITING_ADDITIONAL_STEP" then RequiresUserAction
                                      else if sub == "AUTHORIZED" then Authorized else Processing)
            && (s !in NEW + WAITING ==>
                  var authorized := s == "AUTHORIZED" || sub == "AUTHORIZED";
                  var paid := s in PAID || sub in {"CAPTURED", "APPROVED"};
                  && (p == Authorized <==> authorized)
                  && (p == PartiallyRefunded <==> !authorized && sub == "PARTIALLY_REFUNDED")
                  && (p == Refunded <==> !authorized && (sub == "REFUNDED" || (s == "REFUNDED" && sub != "PARTIALLY_REFUNDED")))
                  && (p == Succeeded <==> !authorized && !Refunding(s, sub) && paid)
                  && (p == Declined <==> !authorized && !Refunding(s, sub) && !paid && s in {"DECLINED", "REJECTED"})
                  && (p == Failed <==> !authorized && !Refunding(s, sub) && !paid && s in {"ERROR", "EXPIRED"})
                  && (p == Canceled <==> !authorized && !Refunding(s, sub) && !paid && s in CANCELING))
  {
  }

  lemma TerminalByName(status: string)
    ensures IsTerminal(status) <==> Upper(status) in FAILING + CANCELING + {"REFUNDED"}
  {
  }

  /** What the guard answers: a repeated event, the state the payment is in already, one that may not replace it, or
      one that is let through. */
  lemma DecisionByName(current: Snapshot, incoming: Snapshot, seen: bool)
    ensures var d := Decide(current, incoming, seen);
            var stale := Upper(current.status) in FAILING + CANCELING + {"REFUNDED"}
                         || Rank(incoming) < Rank(current) || (Rank(current) >= 50 && Rank(incoming) == Rank(current));
            && (d == DuplicateEvent <==> seen)
            && (d == SameState <==> !seen && incoming == current)
            && (d == StaleOrOutOfOrder <==> !seen && incoming != current && stale)
            && (d == Accepted <==> !seen && incoming != current && !stale)
  {
  }

  /** What becomes of an event: one that is known is a duplicate, one about no payment stays unknown and may come again,
      and any other is known from now on. Each leaves a note of its payment and of the answer, and none but an accepted
      one touches a payment. */
  lemma EventByName(st: State, e: Event)
    ensures var d, t := DecisionFor(st, e), Process(st, e);
            var stray := e.paymentId == "" || forall i | 0 <= i < |st.payments| :: st.payments[i].providerId != Some(e.paymentId);
            && (d == DuplicateEvent <==> e.id in st.seen) && (d == Unmatched <==> e.id !in st.seen && stray)
            && t.seen == (if e.id in st.seen || stray then st.seen else st.seen + [e.id])
            && |t.audit| == |st.audit| + 1 && t.audit[..|st.audit|] == st.audit
            && var note := t.audit[|st.audit|];
            && note.eventId == e.id && note.decision == d && (note.payment.None? <==> e.id in st.seen || stray)
            && (note.payment.Some? ==> note.payment.value < |st.payments|
                                       && st.payments[note.payment.value].providerId == Some(e.paymentId))
            && (d != Accepted ==> t.payments == st.payments)
  {
    FoundIsFirst(st.payments, e.paymentId, 0);
  }

  const KNOWN := NEW + WAITING + PAID + FAILING + CANCELING + {"AUTHORIZED", "REFUNDED"}

  /** The pairs whose status and sub status are about different stages of a payment. */
  predicate Mismatched(s: string, sub: string) {
    || (s in NEW && (Refunding(s, sub) || Capturing(s, sub) || sub == "AUTHORIZED"))
    || (s in WAITING && (Refunding(s, sub) || Capturing(s, sub)))
    || (s == "AUTHORIZED" && Refunding(s, sub))
    || (s in FAILING && sub in {"AUTHORIZED", "CAPTURED", "APPROVED"})
    || (s == "REFUNDED" && sub == "AUTHORIZED")
    || (s !in KNOWN && sub == "PARTIALLY_CAPTURED")
  }

  lemma MismatchedIff(s: string, sub: string)
    ensures RankOf(s, sub) >= 10 && PublicRank(PublicOf(s, sub)) < PublicRank(LatestReplaced(RankOf(s, sub)))
            <==> Mismatched(s, sub)
  {
    RankByName(s, sub);
    EarlyRankByName(s, sub);
    PublicByName(s, sub);
  }

  /** An event can lower the rank of some payment exactly when its pair is one of these, whatever the letter case. */
  lemma RankKeptByName(x: Snapshot)
    ensures (forall p | MayApply(p, x) :: PublicRank(p) <= PublicRank(MapStatus(x)))
            <==> !Mismatched(Upper(x.status), Upper(x.sub))
  {
    RankKeptIff(x);
    MismatchedIff(Upper(x.status), Upper(x.sub));
  }

  // ---------------------------------------------------------------- how many events are applied

  /** The event finds this payment and is accepted, after the events before it. */
  ghost predicate AppliedAt(st: State, es: seq<Event>, k: nat, i: int)
    requires 0 <= i < |es|
  {
    var before := Deliver(st, es[..i]);
    FindPayment(before.payments, es[i].paymentId, 0) == Some(k) && DecisionFor(before, es[i]) == Accepted
  }

  ghost function AppliedEvents(st: State, es: seq<Event>, k: nat): set<int> {
    set i | 0 <= i < |es| && AppliedAt(st, es, k, i)
  }

  lemma AppliedInFront(st: State, es: seq<Event>, k: nat, i: int)
    requires 0 <= i < |es| - 1
    ensures AppliedAt(st, es[..|es| - 1], k, i) <==> AppliedAt(st, es, k, i)
  {
    assert es[..|es| - 1][..i] == es[..i];
  }

  lemma AppliedOfFront(st: State, es: seq<Event>, k: nat)
    requires es != []
    ensures var n := |es| - 1;
            && AppliedEvents(st, es, k) == AppliedEvents(st, es[..n], k) + (if AppliedAt(st, es, k, n) then {n} else {})
            && n !in AppliedEvents(st, es[..n], k)
  {
    var n := |es| - 1;
    forall i | 0 <= i < n
      ensures i in AppliedEvents(st, es[..n], k) <==> i in AppliedEvents(st, es, k)
    {
      AppliedInFront(st, es, k, i);
    }
  }

  lemma {:induction false} AppliedCountIs(st: State, es: seq<Event>, k: nat)
    ensures AppliedCount(st, es, k) == |AppliedEvents(st, es, k)|
  {
    if es == [] {
      assert AppliedEvents(st, es, k) == {};
    } else {
      AppliedCountIs(st, es[..|es| - 1], k);
      AppliedOfFront(st, es, k);
      assert AppliedAt(st, es, k, |es| - 1) <==> AppliesTo(Deliver(st, es[..|es| - 1]), es[|es| - 1], k);
    }
  }

  /** Of any sequence of events with documented pairs, at most three are applied to a payment once it is authorized. */
  lemma AtMostThreeApplied(st: State, es: seq<Event>, k: nat)
    requires k < |st.payments| && PublicRank(st.payments[k].status) >= 50
    requires forall i | 0 <= i < |es| :: Documented(es[i].state)
    ensures |AppliedEvents(st, es, k)| <= 3
  {
    forall i | 0 <= i < |es|
      ensures Advances(es[i].state)
    {
      DocumentedPairsAdvance(es[i].state);
    }
    AtMostThreeAfterAuthorized(st, es, k);
    AppliedCountIs(st, es, k);
  }
}
