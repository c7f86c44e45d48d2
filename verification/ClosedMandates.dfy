/** createAutonomousClosedMandates of src/mandates/autonomy.ts as concurrent calls over one registry and one
    policy ledger. Each synchronous stretch of a call is one step; calls interleave at every await. */
module ClosedMandates {
  import opened Outcomes
  import opened PolicyLedger
  import opened OpenMandates
  import opened PolicyEvaluation

  /** Permitted: evaluated, not yet reserved. Releasing: signing or verifying failed, release not yet run. */
  datatype Phase = Permitted | Signing | Releasing | Returned | Failed

  /** `checkout` and `payment` are the copies of the open mandates taken when the call started. */
  datatype Call = Call(request: Request, tx: string, checkout: OpenMandate, payment: OpenMandate, phase: Phase) {
    function Input(): ReserveInput {
      ReserveInput(checkout.id, payment.id, tx, request.checkout.totals.totalMinor, Some(request.now),
                   checkout.terms.constraints, payment.terms.constraints)
    }

    /** The phases in which the ledger holds a reservation for this call. */
    predicate Live() {
      phase in {Signing, Releasing, Returned} && ValidInput(Input())
    }
  }

  datatype State = State(records: Records, ledger: seq<Entry>, calls: seq<Call>)

  datatype Step =
    | Create(id: string, input: CreateInput)
    | Activate(activation: Activation)
    | Revoke(id: string)
    | Start(checkoutAccess: AccessRequest, paymentAccess: AccessRequest, request: Request, tx: string, trusted: bool)
    | Reserve(call: nat)
    | SignOk(call: nat)
    | SignFail(call: nat)
    | Release(call: nat)

  const INITIAL := State(map[], [], [])

  /** Everything a call does before it reserves; None when it throws. `trusted` is the outcome of the
      signer, hash and agent-trust checks. */
  ghost function Begin(records: Records, step: Step): Option<Call>
    requires step.Start?
  {
    var c := AuthorizedActive(records, step.checkoutAccess, step.request.now);
    var p := AuthorizedActive(records, step.paymentAccess, step.request.now);
    if c.Err? || p.Err? then None
    else if c.value.terms.kind != CheckoutKind || p.value.terms.kind != PaymentKind then None
    else if !step.trusted || step.request.checkout.transactionId != step.tx then None
    else if !Permits(step.request, c.value) || !Permits(step.request, p.value) then None
    else Some(Call(step.request, step.tx, c.value, p.value, Permitted))
  }

  predicate CallIn(st: State, i: nat, phase: Phase) {
    i < |st.calls| && st.calls[i].phase == phase
  }

  function Move(st: State, i: nat, phase: Phase): State
    requires i < |st.calls|
  {
    st.(calls := st.calls[i := st.calls[i].(phase := phase)])
  }

  /** A step that is not enabled changes nothing. A refused reservation is thrown outside the `try`, so it
      fails the call without releasing anything. */
  ghost function Next(st: State, step: Step): State {
    match step
    case Create(id, input) =>
      if id in st.records || !ValidCreate(input) then st else st.(records := st.records[id := NewMandate(id, input)])
    case Activate(a) =>
      var proof := ActivationProofFor(st.records, a);
      if proof.Err? then st else st.(records := st.records[a.id := Activated(st.records[a.id], proof.value)])
    case Revoke(id) => st.(records := RevokedIn(st.records, id))
    case Start(_, _, _, _, _) =>
      var begun := Begin(st.records, step);
      if begun.None? then st else st.(calls := st.calls + [begun.value])
    case Reserve(i) =>
      if !CallIn(st, i, Permitted) then st
      else
        var input := st.calls[i].Input();
        if ValidInput(input) && Verdict(st.ledger, input).None?
        then Move(st, i, Signing).(ledger := Reserved(st.ledger, input))
        else Move(st, i, Failed)
    case SignOk(i) => if CallIn(st, i, Signing) then Move(st, i, Returned) else st
    case SignFail(i) => if CallIn(st, i, Signing) then Move(st, i, Releasing) else st
    case Release(i) =>
      if CallIn(st, i, Releasing)
      then Move(st, i, Failed).(ledger := Without(st.ledger, st.calls[i].tx))
      else st
  }

  ghost function Run(steps: seq<Step>): State {
    if steps == [] then INITIAL else Next(Run(steps[..|steps| - 1]), steps[|steps| - 1])
  }

  // ---------------------------------------------------------------- reservations of the calls

  function LiveWeight(c: Call, q: Query): nat {
    if c.Live() then Weight(Reservation(c.Input()), q) else 0
  }

  function ReturnedWeight(c: Call, q: Query): nat {
    if c.phase == Returned then LiveWeight(c, q) else 0
  }

  /** A measure over the calls that hold a reservation. */
  function LiveMeasure(calls: seq<Call>, q: Query): nat {
    if calls == [] then 0 else LiveMeasure(calls[..|calls| - 1], q) + LiveWeight(calls[|calls| - 1], q)
  }

  /** The same measure over the closed mandates that were returned as verified. */
  function ReturnedMeasure(calls: seq<Call>, q: Query): nat {
    if calls == [] then 0 else ReturnedMeasure(calls[..|calls| - 1], q) + ReturnedWeight(calls[|calls| - 1], q)
  }

  predicate Holds(c: Call, e: Entry) {
    c.Live() && Reservation(c.Input()) == e
  }

  predicate HeldByCall(calls: seq<Call>, e: Entry) {
    exists i :: 0 <= i < |calls| && Holds(calls[i], e)
  }

  ghost predicate EntriesHeld(ledger: seq<Entry>, calls: seq<Call>) {
    forall e | e in ledger :: HeldByCall(calls, e)
  }

  ghost predicate CallsReserved(ledger: seq<Entry>, calls: seq<Call>) {
    forall i | 0 <= i < |calls| && calls[i].Live() :: Reservation(calls[i].Input()) in ledger
  }

  ghost predicate LiveDistinct(calls: seq<Call>) {
    forall i, j | 0 <= i < j < |calls| && calls[i].Live() && calls[j].Live() :: calls[i].tx != calls[j].tx
  }

  ghost predicate SameMeasures(ledger: seq<Entry>, calls: seq<Call>) {
    forall q :: Measure(ledger, q) == LiveMeasure(calls, q)
  }

  /** The live reservations are exactly those of the returned pairs and of the calls in flight, one each. */
  ghost predicate Exact(ledger: seq<Entry>, calls: seq<Call>) {
    EntriesHeld(ledger, calls) && CallsReserved(ledger, calls) && LiveDistinct(calls) && SameMeasures(ledger, calls)
  }

  lemma {:induction false} LiveMeasureOfUpdate(calls: seq<Call>, i: nat, c: Call, q: Query)
    requires i < |calls|
    ensures LiveMeasure(calls[i := c], q) + LiveWeight(calls[i], q) == LiveMeasure(calls, q) + LiveWeight(c, q)
  {
    var n := |calls| - 1;
    if i == n {
      assert calls[i := c][..n] == calls[..n];
    } else {
      assert calls[i := c][..n] == calls[..n][i := c];
      LiveMeasureOfUpdate(calls[..n], i, c, q);
    }
  }

  lemma {:induction false} ReturnedMeasureAtMostLive(calls: seq<Call>, q: Query)
    ensures ReturnedMeasure(calls, q) <= LiveMeasure(calls, q)
  {
    if calls != [] {
      ReturnedMeasureAtMostLive(calls[..|calls| - 1], q);
    }
  }

  lemma {:induction false} MeasureWithoutEntry(es: seq<Entry>, e: Entry, q: Query)
    requires DistinctTx(es) && e in es
    ensures Measure(Without(es, e.tx), q) + Weight(e, q) == Measure(es, q)
  {
    var n := |es| - 1;
    if es[n].tx == e.tx {
      assert e == es[n];
      assert !HasTx(es[..n], e.tx);
      WithoutRemoves(es[..n], e.tx);
    } else {
      assert e in es[..n];
      MeasureWithoutEntry(es[..n], e, q);
      assert Without(es, e.tx)[..|Without(es, e.tx)| - 1] == Without(es[..n], e.tx);
    }
  }

  lemma HeldAfterStart(calls: seq<Call>, c: Call, e: Entry)
    requires HeldByCall(calls, e)
    ensures HeldByCall(calls + [c], e)
  {
    var i :| 0 <= i < |calls| && Holds(calls[i], e);
    assert Holds((calls + [c])[i], e);
  }

  lemma MeasuresAfterStart(ledger: seq<Entry>, calls: seq<Call>, c: Call)
    requires SameMeasures(ledger, calls) && c.phase == Permitted
    ensures SameMeasures(ledger, calls + [c])
  {
    assert (calls + [c])[..|calls|] == calls;
  }

  lemma ReservedAfterStart(ledger: seq<Entry>, calls: seq<Call>, c: Call)
    requires CallsReserved(ledger, calls) && LiveDistinct(calls) && c.phase == Permitted
    ensures CallsReserved(ledger, calls + [c]) && LiveDistinct(calls + [c])
  {
  }

  lemma ExactAfterStart(ledger: seq<Entry>, calls: seq<Call>, c: Call)
    requires Exact(ledger, calls) && c.phase == Permitted
    ensures Exact(ledger, calls + [c])
  {
    var next := calls + [c];
    forall e | e in ledger
      ensures HeldByCall(next, e)
    {
      HeldAfterStart(calls, c, e);
    }
    MeasuresAfterStart(ledger, calls, c);
    ReservedAfterStart(ledger, calls, c);
  }

  /** Another call than the moved one still holds its entry, and so does the moved one if it is live as before. */
  lemma HeldAfterMove(calls: seq<Call>, i: nat, phase: Phase, e: Entry)
    requires HeldByCall(calls, e) && i < |calls|
    requires calls[i].(phase := phase).Live() || !Holds(calls[i], e)
    ensures HeldByCall(calls[i := calls[i].(phase := phase)], e)
  {
    var c := calls[i].(phase := phase);
    assert c.Input() == calls[i].Input();
    var k :| 0 <= k < |calls| && Holds(calls[k], e);
    assert Holds(calls[i := c][k], e);
  }

  lemma MeasuresAfterMove(ledger: seq<Entry>, calls: seq<Call>, i: nat, phase: Phase, next: seq<Entry>)
    requires SameMeasures(ledger, calls) && i < |calls|
    requires forall q :: Measure(next, q) + LiveWeight(calls[i], q)
                         == Measure(ledger, q) + LiveWeight(calls[i].(phase := phase), q)
    ensures SameMeasures(next, calls[i := calls[i].(phase := phase)])
  {
    forall q
      ensures Measure(next, q) == LiveMeasure(calls[i := calls[i].(phase := phase)], q)
    {
      LiveMeasureOfUpdate(calls, i, calls[i].(phase := phase), q);
    }
  }

  /** Moving a call between two phases that both hold its reservation, or both do not. */
  lemma ExactAfterMove(ledger: seq<Entry>, calls: seq<Call>, i: nat, phase: Phase)
    requires Exact(ledger, calls) && i < |calls|
    requires calls[i].Live() == calls[i].(phase := phase).Live()
    ensures Exact(ledger, calls[i := calls[i].(phase := phase)])
  {
    var c := calls[i].(phase := phase);
    assert c.Input() == calls[i].Input();
    MeasuresAfterMove(ledger, calls, i, phase, ledger);
    forall e | e in ledger
      ensures HeldByCall(calls[i := c], e)
    {
      HeldAfterMove(calls, i, phase, e);
    }
  }

  lemma MeasureOneMore(ledger: seq<Entry>, e: Entry, q: Query)
    ensures Measure(ledger + [e], q) == Measure(ledger, q) + Weight(e, q)
  {
    assert (ledger + [e])[..|ledger|] == ledger;
  }

  lemma DistinctAfterReserve(ledger: seq<Entry>, calls: seq<Call>, i: nat)
    requires CallsReserved(ledger, calls) && LiveDistinct(calls) && i < |calls| && !HasTx(ledger, calls[i].tx)
    ensures LiveDistinct(calls[i := calls[i].(phase := Signing)])
  {
    forall k | 0 <= k < |calls| && calls[k].Live()
      ensures calls[k].tx != calls[i].tx
    {
      assert Reservation(calls[k].Input()) in ledger;
    }
  }

  lemma ExactAfterReserve(ledger: seq<Entry>, calls: seq<Call>, i: nat)
    requires Exact(ledger, calls) && i < |calls| && calls[i].phase == Permitted
    requires ValidInput(calls[i].Input()) && !HasTx(ledger, calls[i].tx)
    ensures Exact(ledger + [Reservation(calls[i].Input())], calls[i := calls[i].(phase := Signing)])
  {
    var c := calls[i].(phase := Signing);
    var e := Reservation(calls[i].Input());
    var next := calls[i := c];
    assert c.Input() == calls[i].Input();
    forall q
      ensures Measure(ledger + [e], q) + LiveWeight(calls[i], q) == Measure(ledger, q) + LiveWeight(c, q)
    {
      MeasureOneMore(ledger, e, q);
    }
    MeasuresAfterMove(ledger, calls, i, Signing, ledger + [e]);
    DistinctAfterReserve(ledger, calls, i);
    forall f | f in ledger + [e]
      ensures HeldByCall(next, f)
    {
      if f == e {
        assert Holds(next[i], f);
      } else {
        HeldAfterMove(calls, i, Signing, f);
      }
    }
  }

  lemma ReservedAfterRelease(ledger: seq<Entry>, calls: seq<Call>, i: nat)
    requires CallsReserved(ledger, calls) && LiveDistinct(calls) && i < |calls| && calls[i].Live()
    ensures CallsReserved(Without(ledger, calls[i].tx), calls[i := calls[i].(phase := Failed)])
  {
    var next := calls[i := calls[i].(phase := Failed)];
    WithoutRemoves(ledger, calls[i].tx);
    forall k | 0 <= k < |next| && next[k].Live()
      ensures Reservation(next[k].Input()) in Without(ledger, calls[i].tx)
    {
      assert k != i && next[k] == calls[k];
      assert calls[k].tx != calls[i].tx;
    }
  }

  lemma ExactAfterRelease(ledger: seq<Entry>, calls: seq<Call>, i: nat)
    requires Exact(ledger, calls) && DistinctTx(ledger) && i < |calls| && calls[i].Live()
    ensures Exact(Without(ledger, calls[i].tx), calls[i := calls[i].(phase := Failed)])
  {
    var rest := Without(ledger, calls[i].tx);
    WithoutRemoves(ledger, calls[i].tx);
    ReservedAfterRelease(ledger, calls, i);
    forall q
      ensures Measure(rest, q) + LiveWeight(calls[i], q) == Measure(ledger, q) + LiveWeight(calls[i].(phase := Failed), q)
    {
      MeasureWithoutEntry(ledger, Reservation(calls[i].Input()), q);
    }
    MeasuresAfterMove(ledger, calls, i, Failed, rest);
    forall f | f in rest
      ensures HeldByCall(calls[i := calls[i].(phase := Failed)], f)
    {
      HeldAfterMove(calls, i, Failed, f);
    }
  }

  // ---------------------------------------------------------------- the invariant

  function Limits(records: Records): map<string, Constraints> {
    map id | id in records :: records[id].terms.constraints
  }

  /** A call carries copies of mandates whose terms are still the ones in the registry. */
  ghost predicate CallKnown(c: Call, records: Records) {
    && c.checkout.id in records && records[c.checkout.id].terms == c.checkout.terms
    && c.payment.id in records && records[c.payment.id].terms == c.payment.terms
    && (c.phase in {Signing, Releasing, Returned} ==> c.Live())
  }

  ghost predicate CallsKnown(calls: seq<Call>, records: Records) {
    forall i | 0 <= i < |calls| :: CallKnown(calls[i], records)
  }

  ghost predicate EntriesKnown(es: seq<Entry>, records: Records) {
    forall e | e in es :: e.checkoutId in records && e.paymentId in records
  }

  ghost predicate Inv(st: State) {
    && RecordsInv(st.records)
    && CallsKnown(st.calls, st.records)
    && EntriesKnown(st.ledger, st.records)
    && LedgerInv(st.ledger, Limits(st.records))
    && Exact(st.ledger, st.calls)
  }

  lemma {:induction false} UnmentionedMandate(es: seq<Entry>, records: Records, side: Side, id: string, c: Constraints)
    requires EntriesKnown(es, records) && id !in records
    ensures forall cutoff :: Measure(es, Since(side, id, cutoff)) == 0
    ensures Measure(es, Spent(side, id)) == 0 && Measure(es, Operations(side, id)) == 0
    ensures WindowKept(es, side, id, c)
  {
    if es != [] {
      assert es[|es| - 1] in es;
      UnmentionedMandate(es[..|es| - 1], records, side, id, c);
    }
  }

  lemma LimitsWithNewMandate(es: seq<Entry>, records: Records, next: Records, id: string)
    requires LedgerInv(es, Limits(records)) && EntriesKnown(es, records) && id !in records
    requires next.Keys == records.Keys + {id} && TermsFrozen(records, next) && ValidConstraints(next[id].terms.constraints)
    ensures LedgerInv(es, Limits(next))
  {
    assert forall k | k in records :: Limits(next)[k] == Limits(records)[k];
    forall side, k | k in Limits(next)
      ensures LimitsKept(es, side, k, Limits(next)[k])
    {
      if k == id {
        UnmentionedMandate(es, records, side, k, Limits(next)[k]);
      } else {
        assert LimitsKept(es, side, k, Limits(records)[k]);
      }
    }
  }

  lemma CreatedRecords(records: Records, id: string, input: CreateInput)
    requires RecordsInv(records) && id !in records && ValidCreate(input)
    ensures var next := records[id := NewMandate(id, input)]; RecordsInv(next) && TermsFrozen(records, next)
  {
  }

  /** Mandates that keep their terms stay known to the calls and to the reservations. */
  lemma FrozenTermsKeepKnown(calls: seq<Call>, es: seq<Entry>, records: Records, next: Records)
    requires CallsKnown(calls, records) && EntriesKnown(es, records) && TermsFrozen(records, next)
    ensures CallsKnown(calls, next) && EntriesKnown(es, next)
  {
    forall i | 0 <= i < |calls|
      ensures CallKnown(calls[i], next)
    {
      assert CallKnown(calls[i], records);
    }
  }

  lemma CreateKeepsInv(st: State, id: string, input: CreateInput)
    requires Inv(st)
    ensures Inv(Next(st, Create(id, input)))
  {
    if id !in st.records && ValidCreate(input) {
      var next := st.records[id := NewMandate(id, input)];
      CreatedRecords(st.records, id, input);
      FrozenTermsKeepKnown(st.calls, st.ledger, st.records, next);
      LimitsWithNewMandate(st.ledger, st.records, next, id);
    }
  }

  lemma SameTermsKeepInv(st: State, next: Records)
    requires Inv(st) && RecordsInv(next) && next.Keys == st.records.Keys && TermsFrozen(st.records, next)
    ensures Inv(st.(records := next))
  {
    assert Limits(next) == Limits(st.records);
    FrozenTermsKeepKnown(st.calls, st.ledger, st.records, next);
  }

  lemma ActivateKeepsInv(st: State, a: Activation)
    requires Inv(st)
    ensures Inv(Next(st, Activate(a)))
  {
    var proof := ActivationProofFor(st.records, a);
    if proof.Ok? {
      assert a.id in st.records;
      ActivatedRecords(st.records, a, proof.value);
      SameTermsKeepInv(st, st.records[a.id := Activated(st.records[a.id], proof.value)]);
    }
  }

  lemma ActivatedRecords(records: Records, a: Activation, proof: Proof)
    requires RecordsInv(records) && ActivationProofFor(records, a) == Ok(proof)
    ensures var next := records[a.id := Activated(records[a.id], proof)]; RecordsInv(next) && TermsFrozen(records, next)
  {
    assert RecordInv(records[a.id], a.id);
  }

  lemma RevokedRecords(records: Records, id: string)
    requires RecordsInv(records)
    ensures RecordsInv(RevokedIn(records, id)) && TermsFrozen(records, RevokedIn(records, id))
  {
    assert id in records ==> RecordInv(records[id], id);
  }

  lemma RevokeKeepsInv(st: State, id: string)
    requires Inv(st)
    ensures Inv(Next(st, Revoke(id)))
  {
    RevokedRecords(st.records, id);
    SameTermsKeepInv(st, RevokedIn(st.records, id));
  }

  lemma BegunIsKnown(records: Records, step: Step)
    requires RecordsInv(records) && step.Start? && Begin(records, step).Some?
    ensures CallKnown(Begin(records, step).value, records) && Begin(records, step).value.phase == Permitted
  {
    assert RecordInv(records[step.checkoutAccess.id], step.checkoutAccess.id);
    assert RecordInv(records[step.paymentAccess.id], step.paymentAccess.id);
  }

  lemma StartKeepsInv(st: State, step: Step)
    requires Inv(st) && step.Start?
    ensures Inv(Next(st, step))
  {
    var begun := Begin(st.records, step);
    if begun.Some? {
      BegunIsKnown(st.records, step);
      ExactAfterStart(st.ledger, st.calls, begun.value);
    }
  }

  lemma MoveKeepsKnown(calls: seq<Call>, records: Records, i: nat, phase: Phase)
    requires CallsKnown(calls, records) && i < |calls|
    requires phase in {Signing, Releasing, Returned} ==> ValidInput(calls[i].Input())
    ensures CallsKnown(calls[i := calls[i].(phase := phase)], records)
  {
    var c := calls[i].(phase := phase);
    var next := calls[i := c];
    assert c.Input() == calls[i].Input();
    forall k | 0 <= k < |next|
      ensures CallKnown(next[k], records)
    {
      assert CallKnown(calls[k], records);
    }
  }

  lemma ReserveKeepsKnown(ledger: seq<Entry>, records: Records, c: Call)
    requires EntriesKnown(ledger, records) && CallKnown(c, records) && ValidInput(c.Input())
    ensures EntriesKnown(ledger + [Reservation(c.Input())], records)
  {
  }

  lemma AcceptedKeepsInv(st: State, i: nat)
    requires Inv(st) && CallIn(st, i, Permitted)
    requires ValidInput(st.calls[i].Input()) && Verdict(st.ledger, st.calls[i].Input()).None?
    ensures Inv(Move(st, i, Signing).(ledger := st.ledger + [Reservation(st.calls[i].Input())]))
  {
    var input := st.calls[i].Input();
    assert CallKnown(st.calls[i], st.records);
    ReserveKeepsInv(st.ledger, input, Limits(st.records));
    ReserveKeepsKnown(st.ledger, st.records, st.calls[i]);
    MoveKeepsKnown(st.calls, st.records, i, Signing);
    ExactAfterReserve(st.ledger, st.calls, i);
  }

  lemma MoveKeepsInv(st: State, i: nat, phase: Phase)
    requires Inv(st) && i < |st.calls| && st.calls[i].Live() == st.calls[i].(phase := phase).Live()
    requires phase in {Signing, Releasing, Returned} ==> ValidInput(st.calls[i].Input())
    ensures Inv(Move(st, i, phase))
  {
    MoveKeepsKnown(st.calls, st.records, i, phase);
    ExactAfterMove(st.ledger, st.calls, i, phase);
  }

  lemma ReserveKeepsInvOfCalls(st: State, i: nat)
    requires Inv(st)
    ensures Inv(Next(st, Reserve(i)))
  {
    if CallIn(st, i, Permitted) {
      var input := st.calls[i].Input();
      if ValidInput(input) && Verdict(st.ledger, input).None? {
        AcceptedKeepsInv(st, i);
      } else {
        MoveKeepsInv(st, i, Failed);
      }
    }
  }

  lemma SigningKeepsInv(st: State, i: nat, step: Step)
    requires Inv(st) && (step == SignOk(i) || step == SignFail(i))
    ensures Inv(Next(st, step))
  {
    if CallIn(st, i, Signing) {
      assert CallKnown(st.calls[i], st.records);
      var phase := if step.SignOk? then Returned else Releasing;
      assert st.calls[i].(phase := phase).Input() == st.calls[i].Input();
      MoveKeepsInv(st, i, phase);
    }
  }

  lemma ReleaseKeepsKnown(ledger: seq<Entry>, records: Records, tx: string)
    requires EntriesKnown(ledger, records)
    ensures EntriesKnown(Without(ledger, tx), records)
  {
    WithoutRemoves(ledger, tx);
  }

  lemma ReleaseKeepsInvOfCalls(st: State, i: nat)
    requires Inv(st)
    ensures Inv(Next(st, Release(i)))
  {
    if CallIn(st, i, Releasing) {
      assert CallKnown(st.calls[i], st.records);
      ExactAfterRelease(st.ledger, st.calls, i);
      MoveKeepsKnown(st.calls, st.records, i, Failed);
      ReleaseKeepsKnown(st.ledger, st.records, st.calls[i].tx);
      ReleaseKeepsInv(st.ledger, st.calls[i].tx, Limits(st.records));
    }
  }

  lemma NextKeepsInv(st: State, step: Step)
    requires Inv(st)
    ensures Inv(Next(st, step))
  {
    match step
    case Create(id, input) => CreateKeepsInv(st, id, input);
    case Activate(a) => ActivateKeepsInv(st, a);
    case Revoke(id) => RevokeKeepsInv(st, id);
    case Start(_, _, _, _, _) => StartKeepsInv(st, step);
    case Reserve(i) => ReserveKeepsInvOfCalls(st, i);
    case SignOk(i) => SigningKeepsInv(st, i, step);
    case SignFail(i) => SigningKeepsInv(st, i, step);
    case Release(i) => ReleaseKeepsInvOfCalls(st, i);
  }

  lemma {:induction false} EveryRunKeepsInv(steps: seq<Step>)
    ensures Inv(Run(steps))
  {
    if steps != [] {
      EveryRunKeepsInv(steps[..|steps| - 1]);
      NextKeepsInv(Run(steps[..|steps| - 1]), steps[|steps| - 1]);
    }
  }

  /** In every interleaving the ledger holds exactly one reservation for each returned pair and each call in
      flight, and none for a failed call. */
  lemma ReservationsAreExact(steps: seq<Step>)
    ensures Exact(Run(steps).ledger, Run(steps).calls)
  {
    EveryRunKeepsInv(steps);
  }

  ghost predicate WithinLimits(calls: seq<Call>, c: Constraints, side: Side, id: string, lo: int) {
    && ReturnedMeasure(calls, Spent(side, id)) <= c.totalBudgetMinor
    && ReturnedMeasure(calls, Operations(side, id)) <= c.maxOperations
    && ReturnedMeasure(calls, Within(side, id, lo, lo + c.WindowMs())) <= c.maxOperationsPerWindow
  }

  lemma ReturnedAtMostReserved(ledger: seq<Entry>, calls: seq<Call>, q: Query)
    requires Exact(ledger, calls)
    ensures ReturnedMeasure(calls, q) <= Measure(ledger, q)
  {
    ReturnedMeasureAtMostLive(calls, q);
  }

  lemma ReturnedWithinLimits(
    ledger: seq<Entry>, calls: seq<Call>, limits: map<string, Constraints>, side: Side, id: string, lo: int)
    requires LedgerInv(ledger, limits) && Exact(ledger, calls) && id in limits
    ensures WithinLimits(calls, limits[id], side, id, lo)
  {
    KeptIsWithinLimits(ledger, limits, side, id, lo);
    ReturnedAtMostReserved(ledger, calls, Spent(side, id));
    ReturnedAtMostReserved(ledger, calls, Operations(side, id));
    ReturnedAtMostReserved(ledger, calls, Within(side, id, lo, lo + limits[id].WindowMs()));
  }

  /** In every interleaving of calls, revocations and signing failures, the verified payments under one open
      mandate stay within its frozen budget, operation count and window limit. */
  lemma VerifiedPaymentsWithinLimits(steps: seq<Step>, side: Side, id: string, lo: int)
    requires id in Run(steps).records
    ensures WithinLimits(Run(steps).calls, Run(steps).records[id].terms.constraints, side, id, lo)
  {
    EveryRunKeepsInv(steps);
    ReturnedWithinLimits(Run(steps).ledger, Run(steps).calls, Limits(Run(steps).records), side, id, lo);
  }

  lemma ReturnedIsAbsorbing(st: State, step: Step, i: nat)
    requires CallIn(st, i, Returned)
    ensures CallIn(Next(st, step), i, Returned) && Next(st, step).calls[i] == st.calls[i]
  {
  }

  /** A returned pair keeps its reservation whatever happens next: no later step, and in particular no
      rejected duplicate of its transaction, releases it. */
  lemma ReturnedPairStaysReserved(st: State, step: Step, i: nat)
    requires Inv(st) && CallIn(st, i, Returned)
    ensures CallIn(Next(st, step), i, Returned)
    ensures Reservation(st.calls[i].Input()) in Next(st, step).ledger
  {
    NextKeepsInv(st, step);
    ReturnedIsAbsorbing(st, step, i);
    assert CallKnown(st.calls[i], st.records);
  }

  /** What was checked when the call started, on the copies it carries. */
  ghost predicate Vetted(c: Call) {
    && Permits(c.request, c.checkout) && Permits(c.request, c.payment)
    && c.checkout.terms.kind == CheckoutKind && c.payment.terms.kind == PaymentKind
    && c.request.checkout.transactionId == c.tx
  }

  ghost predicate AllVetted(calls: seq<Call>) {
    forall i | 0 <= i < |calls| :: Vetted(calls[i])
  }

  lemma MoveKeepsVetted(st: State, i: nat, phase: Phase)
    requires AllVetted(st.calls) && i < |st.calls|
    ensures AllVetted(Move(st, i, phase).calls)
  {
    assert Vetted(st.calls[i]);
  }

  lemma StepKeepsVetted(st: State, step: Step)
    requires AllVetted(st.calls)
    ensures AllVetted(Next(st, step).calls)
  {
    match step
    case Create(_, _) =>
    case Activate(_) =>
    case Revoke(_) =>
    case Start(_, _, _, _, _) =>
    case Reserve(i) =>
      if i < |st.calls| {
        MoveKeepsVetted(st, i, Signing);
        MoveKeepsVetted(st, i, Failed);
      }
    case SignOk(i) => if i < |st.calls| { MoveKeepsVetted(st, i, Returned); }
    case SignFail(i) => if i < |st.calls| { MoveKeepsVetted(st, i, Releasing); }
    case Release(i) => if i < |st.calls| { MoveKeepsVetted(st, i, Failed); }
  }

  lemma {:induction false} RunKeepsVetted(steps: seq<Step>)
    ensures AllVetted(Run(steps).calls)
  {
    if steps != [] {
      RunKeepsVetted(steps[..|steps| - 1]);
      StepKeepsVetted(Run(steps[..|steps| - 1]), steps[|steps| - 1]);
    }
  }

  /** Every closed pair of every run, returned or not, was permitted by both of its open mandates. */
  lemma EveryCallWasPermitted(steps: seq<Step>, i: nat)
    requires i < |Run(steps).calls|
    ensures Vetted(Run(steps).calls[i])
  {
    RunKeepsVetted(steps);
  }
}
