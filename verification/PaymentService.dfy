/** createPayment of src/services/payments/payment-service.ts under platform idempotency: concurrent calls,
    each made of lock sections and awaits, over one payment store. */
module PaymentService {
  import opened Outcomes
  import opened Text
  import opened CanonicalJson
  import Provider = ProviderIdempotency

  datatype Reply = Reply(httpStatus: int, body: string)

  /** A record is in progress, or holds the reply that later requests with its key get. */
  datatype IdempotencyRecord =
    | InProgress(bodyHash: Digest)
    | Completed(bodyHash: Digest, reply: Reply)
    | Failed(bodyHash: Digest, reply: Reply)

  datatype Payment = Payment(id: nat, providerKey: string, status: string, providerPaymentId: Option<string>)

  datatype Store = Store(idempotency: map<string, IdempotencyRecord>, payments: seq<Payment>)

  const OPERATION := "payments.create"

  function IdemKey(actor: string, key: string): string {
    actor + [':'] + (":" + OPERATION + "::" + key)
  }

  /** The provider key is a hash of this text, so it stands for the key. The header is not trimmed here. */
  function ProviderKey(actor: string, rawKey: string): string {
    "payments.create:" + (actor + [':'] + rawKey)
  }

  lemma IdemKeyIsInjective(a: string, k: string, b: string, m: string)
    requires ':' !in a && ':' !in b && IdemKey(a, k) == IdemKey(b, m)
    ensures a == b && k == m
  {
    var p := ":" + OPERATION + "::";
    JoinIsInjective(a, p + k, b, p + m, ':');
    assert (p + k)[|p|..] == k && (p + m)[|p|..] == m;
  }

  lemma ProviderKeyIsInjective(a: string, k: string, b: string, m: string)
    requires ':' !in a && ':' !in b && ProviderKey(a, k) == ProviderKey(b, m)
    ensures a == b && k == m
  {
    var p := "payments.create:";
    assert (p + (a + [':'] + k))[|p|..] == a + [':'] + k;
    assert (p + (b + [':'] + m))[|p|..] == b + [':'] + m;
    JoinIsInjective(a, k, b, m, ':');
  }

  /** Requests that share a platform record share the provider key exactly when they spell the header alike:
      the record is filed under the trimmed header, the provider key is derived from the header as sent. */
  lemma SameRecordSameProviderKey(a: string, k: string, b: string, m: string)
    requires ':' !in a && ':' !in b
    requires IdemKey(a, Trim(k)) == IdemKey(b, Trim(m))
    ensures ProviderKey(a, k) == ProviderKey(b, m) <==> k == m
  {
    IdemKeyIsInjective(a, Trim(k), b, Trim(m));
    if ProviderKey(a, k) == ProviderKey(b, m) {
      ProviderKeyIsInjective(a, k, b, m);
    }
  }

  // ---------------------------------------------------------------- lock sections

  datatype Entry = Proceed | Replayed(reply: Reply) | Refused(reply: Reply)

  const KEY_REUSED := Reply(409, "idempotency_key_reused")
  const IN_PROGRESS := Reply(409, "request_in_progress")
  const OUTCOME_UNKNOWN := Reply(502, "payment_outcome_unknown")
  const NOT_FOUND := Reply(404, "not_found")
  const KEY_REQUIRED := Reply(400, "invalid_request")

  /** What the first section of withIdempotency decides about a key. */
  function Entered(idempotency: map<string, IdempotencyRecord>, key: string, bodyHash: Digest): Entry {
    if key !in idempotency then Proceed
    else if idempotency[key].bodyHash != bodyHash then Refused(KEY_REUSED)
    else
      match idempotency[key]
      case InProgress(_) => Refused(IN_PROGRESS)
      case Completed(_, reply) => Replayed(reply)
      case Failed(_, reply) => Replayed(reply)
  }

  function FindByKey(payments: seq<Payment>, providerKey: string): (r: Option<Payment>)
    ensures r.None? <==> forall i | 0 <= i < |payments| :: payments[i].providerKey != providerKey
    ensures r.Some? ==> r.value in payments && r.value.providerKey == providerKey
  {
    if payments == [] then None
    else if payments[0].providerKey == providerKey then Some(payments[0])
    else FindByKey(payments[1..], providerKey)
  }

  function WithoutId(payments: seq<Payment>, id: nat): (r: seq<Payment>)
    ensures forall p :: p in r <==> p in payments && p.id != id
  {
    if payments == [] then []
    else if payments[0].id == id then WithoutId(payments[1..], id)
    else [payments[0]] + WithoutId(payments[1..], id)
  }

  datatype View = View(id: string, status: string)

  /** The position of the first payment with this id, or the number of payments. */
  function IndexOfId(payments: seq<Payment>, id: nat): (k: nat)
    ensures k <= |payments|
    ensures forall i | 0 <= i < k :: payments[i].id != id
    ensures k < |payments| ==> payments[k].id == id
  {
    if payments == [] || payments[0].id == id then 0 else 1 + IndexOfId(payments[1..], id)
  }

  /** The payments with the view of the provider written into the one with this id. */
  function Viewed(payments: seq<Payment>, id: nat, view: View): (r: seq<Payment>)
    ensures |r| == |payments|
    ensures forall i | 0 <= i < |r| :: r[i].id == payments[i].id && r[i].providerKey == payments[i].providerKey
  {
    var k := IndexOfId(payments, id);
    if k < |payments| then payments[k := payments[k].(status := view.status, providerPaymentId := Some(view.id))]
    else payments
  }

  predicate HasId(payments: seq<Payment>, id: nat) {
    exists i :: 0 <= i < |payments| && payments[i].id == id
  }

  /** How a run ends: its reply is stored, its error is stored, or the record is dropped for a retry. */
  datatype Ending = Succeed(reply: Reply) | Fail(reply: Reply) | Drop

  function Settled(idempotency: map<string, IdempotencyRecord>, key: string, ending: Ending): map<string, IdempotencyRecord> {
    if key !in idempotency then idempotency
    else
      var hash := idempotency[key].bodyHash;
      match ending
      case Succeed(reply) => idempotency[key := Completed(hash, reply)]
      case Fail(reply) => if idempotency[key].InProgress? then idempotency[key := Failed(hash, reply)] else idempotency
      case Drop => if idempotency[key].InProgress? then idempotency - {key} else idempotency
  }

  class PaymentStore {
    var idempotency: map<string, IdempotencyRecord>
    var payments: seq<Payment>

    constructor ()
      ensures idempotency == map[] && payments == []
    {
      idempotency, payments := map[], [];
    }

    method Enter(key: string, bodyHash: Digest) returns (r: Entry)
      modifies this`idempotency
      ensures r == Entered(old(idempotency), key, bodyHash)
      ensures idempotency == if r == Proceed then old(idempotency)[key := InProgress(bodyHash)] else old(idempotency)
    {
      if key !in idempotency {
        idempotency := idempotency[key := InProgress(bodyHash)];
        return Proceed;
      }
      var existing := idempotency[key];
      if existing.bodyHash != bodyHash {
        return Refused(KEY_REUSED);
      }
      if existing.InProgress? {
        return Refused(IN_PROGRESS);
      }
      return Replayed(existing.reply);
    }

    /** store.payments.find over the provider key. */
    method Find(providerKey: string) returns (r: Option<Payment>)
      ensures r == FindByKey(payments, providerKey)
    {
      var i := 0;
      while i < |payments|
        invariant 0 <= i <= |payments|
        invariant FindByKey(payments, providerKey) == FindByKey(payments[i..], providerKey)
      {
        if payments[i].providerKey == providerKey {
          return Some(payments[i]);
        }
        i := i + 1;
      }
      return None;
    }

    method PushDraft(id: nat, providerKey: string)
      modifies this`payments
      ensures payments == old(payments) + [Payment(id, providerKey, "processing", None)]
    {
      payments := payments + [Payment(id, providerKey, "processing", None)];
    }

    method RemoveDraft(id: nat)
      modifies this`payments
      ensures payments == WithoutId(old(payments), id)
    {
      payments := WithoutId(payments, id);
    }

    method ApplyProviderView(id: nat, view: View)
      modifies this`payments
      ensures payments == Viewed(old(payments), id, view)
    {
      var i := 0;
      while i < |payments|
        invariant 0 <= i <= |payments| && payments == old(payments)
        invariant forall m | 0 <= m < i :: payments[m].id != id
      {
        if payments[i].id == id {
          payments := payments[i := payments[i].(status := view.status, providerPaymentId := Some(view.id))];
          return;
        }
        i := i + 1;
      }
    }

    method Settle(key: string, ending: Ending)
      modifies this`idempotency
      ensures idempotency == Settled(old(idempotency), key, ending)
    {
      if key in idempotency {
        var rec := idempotency[key];
        match ending
        case Succeed(reply) => idempotency := idempotency[key := Completed(rec.bodyHash, reply)];
        case Fail(reply) =>
          if rec.InProgress? {
            idempotency := idempotency[key := Failed(rec.bodyHash, reply)];
          }
        case Drop =>
          if rec.InProgress? {
            idempotency := idempotency - {key};
          }
      }
    }
  }

  // ---------------------------------------------------------------- concurrent calls

  datatype Phase =
    | Running
    | Looking
    | Drafting
    | Calling(id: nat, retry: bool)
    | Removing(id: nat, ending: Ending)
    | Marking(id: nat)
    | Applying(id: nat, view: View)
    | Fetching(id: nat)
    | Finishing(ending: Ending)
    | Done(reply: Option<Reply>)

  datatype Call = Call(actor: string, rawKey: string, bodyHash: Digest, phase: Phase) {
    function Key(): string {
      IdemKey(actor, Trim(rawKey))
    }

    function ChargeKey(): string {
      ProviderKey(actor, rawKey)
    }

    predicate InFlight() {
      !phase.Done?
    }
  }

  /** What the adapter call gives: a payment, no known outcome, a rejection, or an unexpected error. */
  datatype ProviderReply = Known(view: View) | Unknown | Rejected(reply: Reply) | Broken

  /** What the checks before the payment give. */
  datatype Checked = Passed | Denied(reply: Reply) | Crashed

  datatype State = State(store: Store, calls: seq<Call>, nextId: nat)

  datatype Step =
    | Arrive(actor: string, rawKey: string, bodyHash: Digest)
    | Check(call: nat, checked: Checked)
    | Lookup(call: nat)
    | Push(call: nat)
    | Answer(call: nat, answer: ProviderReply)
    | Advance(call: nat, publicSafe: bool)
    | Throw(call: nat, error: Option<Reply>)

  const INITIAL := State(Store(map[], []), [], 0)

  function Move(st: State, i: nat, phase: Phase): State
    requires i < |st.calls|
  {
    st.(calls := st.calls[i := st.calls[i].(phase := phase)])
  }

  function Payments(st: State, payments: seq<Payment>): State {
    st.(store := st.store.(payments := payments))
  }

  function AfterAnswer(id: nat, retry: bool, answer: ProviderReply): Phase {
    match answer
    case Known(view) => Applying(id, view)
    case Unknown => if retry then Finishing(Fail(OUTCOME_UNKNOWN)) else Marking(id)
    case Rejected(reply) => if retry then Finishing(Fail(reply)) else Removing(id, Fail(reply))
    case Broken => if retry then Finishing(Drop) else Removing(id, Drop)
  }

  function ReplyOf(ending: Ending): Option<Reply> {
    match ending
    case Succeed(reply) => Some(reply)
    case Fail(reply) => Some(reply)
    case Drop => None
  }

  function DoArrive(st: State, actor: string, rawKey: string, bodyHash: Digest): State {
    if Trim(rawKey) == "" then
      st.(calls := st.calls + [Call(actor, rawKey, bodyHash, Done(Some(KEY_REQUIRED)))])
    else
      var key := IdemKey(actor, Trim(rawKey));
      match Entered(st.store.idempotency, key, bodyHash)
      case Proceed =>
        st.(calls := st.calls + [Call(actor, rawKey, bodyHash, Running)],
            store := st.store.(idempotency := st.store.idempotency[key := InProgress(bodyHash)]))
      case Replayed(reply) => st.(calls := st.calls + [Call(actor, rawKey, bodyHash, Done(Some(reply)))])
      case Refused(reply) => st.(calls := st.calls + [Call(actor, rawKey, bodyHash, Done(Some(reply)))])
  }

  function DoLookup(st: State, i: nat): State
    requires i < |st.calls|
  {
    var existing := FindByKey(st.store.payments, st.calls[i].ChargeKey());
    if existing.None? then Move(st, i, Drafting)
    else if existing.value.status == "processing" && existing.value.providerPaymentId.None? then
      Move(st, i, Calling(existing.value.id, true))
    else Move(st, i, Finishing(Succeed(Reply(201, existing.value.status))))
  }

  function DoPush(st: State, i: nat): State
    requires i < |st.calls|
  {
    Payments(Move(st, i, Calling(st.nextId, false)),
             st.store.payments + [Payment(st.nextId, st.calls[i].ChargeKey(), "processing", None)])
    .(nextId := st.nextId + 1)
  }

  /** The sections after the provider answered. `publicSafe` is the outcome of the check on the reply. */
  function DoAdvance(st: State, i: nat, publicSafe: bool): State
    requires i < |st.calls|
  {
    match st.calls[i].phase
    case Removing(id, ending) => Payments(Move(st, i, Finishing(ending)), WithoutId(st.store.payments, id))
    case Marking(id) => Move(st, i, Finishing(Fail(OUTCOME_UNKNOWN)))
    case Applying(id, view) => Payments(Move(st, i, Fetching(id)), Viewed(st.store.payments, id, view))
    case Fetching(id) =>
      if HasId(st.store.payments, id) && publicSafe
      then Move(st, i, Finishing(Succeed(Reply(201, "payment"))))
      else Move(st, i, Finishing(Fail(NOT_FOUND)))
    case Finishing(ending) =>
      var done := Move(st, i, Done(ReplyOf(ending)));
      done.(store := st.store.(idempotency := Settled(st.store.idempotency, st.calls[i].Key(), ending)))
    case _ => st
  }

  /** Where anything but the checks and the adapter call may throw: decrypting the vaulted token, a lock section,
      or storing a success. */
  predicate MayThrow(ph: Phase) {
    || ph.Looking? || ph.Drafting? || ph.Removing? || ph.Marking? || ph.Applying? || ph.Fetching?
    || (ph.Finishing? && ph.ending.Succeed?)
  }

  /** A payment error is stored, any other one drops the record. */
  function Thrown(error: Option<Reply>): Ending {
    if error.Some? then Fail(error.value) else Drop
  }

  /** A step that is not enabled changes nothing. Actor ids contain no colon. */
  function Next(st: State, step: Step): State {
    match step
    case Arrive(actor, rawKey, bodyHash) => if ':' in actor then st else DoArrive(st, actor, rawKey, bodyHash)
    case Check(i, checked) =>
      if i >= |st.calls| || !st.calls[i].phase.Running? then st
      else
        (match checked
         case Passed => Move(st, i, Looking)
         case Denied(reply) => Move(st, i, Finishing(Fail(reply)))
         case Crashed => Move(st, i, Finishing(Drop)))
    case Lookup(i) => if i < |st.calls| && st.calls[i].phase.Looking? then DoLookup(st, i) else st
    case Push(i) => if i < |st.calls| && st.calls[i].phase.Drafting? then DoPush(st, i) else st
    case Answer(i, answer) =>
      if i < |st.calls| && st.calls[i].phase.Calling?
      then Move(st, i, AfterAnswer(st.calls[i].phase.id, st.calls[i].phase.retry, answer))
      else st
    case Advance(i, publicSafe) => if i < |st.calls| then DoAdvance(st, i, publicSafe) else st
    case Throw(i, error) =>
      if i < |st.calls| && MayThrow(st.calls[i].phase) then Move(st, i, Finishing(Thrown(error))) else st
  }

  // ---------------------------------------------------------------- invariant

  ghost predicate ActorsKnown(calls: seq<Call>) {
    forall i | 0 <= i < |calls| :: ':' !in calls[i].actor
  }

  /** Each call in flight owns the in-progress record of its key. */
  ghost predicate Owns(c: Call, idempotency: map<string, IdempotencyRecord>) {
    c.InFlight() ==> c.Key() in idempotency && idempotency[c.Key()] == InProgress(c.bodyHash)
  }

  ghost predicate OneRunPerKey(calls: seq<Call>) {
    forall i, j | 0 <= i < j < |calls| && calls[i].InFlight() && calls[j].InFlight() :: calls[i].Key() != calls[j].Key()
  }

  ghost predicate OnePaymentPerKey(payments: seq<Payment>) {
    forall i, j | 0 <= i < j < |payments| :: payments[i].providerKey != payments[j].providerKey
  }

  /** A call about to push its draft has none, and nobody else can push one for its provider key. */
  ghost predicate DraftsMissing(calls: seq<Call>, payments: seq<Payment>) {
    forall i, p | 0 <= i < |calls| && calls[i].phase.Drafting? && p in payments :: p.providerKey != calls[i].ChargeKey()
  }

  ghost predicate Inv(st: State) {
    && ActorsKnown(st.calls)
    && (forall i | 0 <= i < |st.calls| :: Owns(st.calls[i], st.store.idempotency))
    && OneRunPerKey(st.calls)
    && OnePaymentPerKey(st.store.payments)
    && DraftsMissing(st.calls, st.store.payments)
  }

  lemma OwnersAreDistinct(calls: seq<Call>, i: nat, j: nat)
    requires ActorsKnown(calls) && OneRunPerKey(calls) && i < |calls| && j < |calls| && i != j
    requires calls[i].InFlight() && calls[j].InFlight()
    ensures calls[i].ChargeKey() != calls[j].ChargeKey()
  {
    assert calls[i].Key() != calls[j].Key() by {
      if i > j {
        assert calls[j].Key() != calls[i].Key();
      }
    }
    if calls[i].ChargeKey() == calls[j].ChargeKey() {
      ProviderKeyIsInjective(calls[i].actor, calls[i].rawKey, calls[j].actor, calls[j].rawKey);
    }
  }

  /** Moving a call that stays in flight, while payments only lose members or change their views. */
  lemma MoveKeepsInv(st: State, i: nat, phase: Phase, payments: seq<Payment>)
    requires Inv(st) && i < |st.calls| && st.calls[i].InFlight() && !phase.Done? && !phase.Drafting?
    requires OnePaymentPerKey(payments)
    requires forall p | p in payments :: exists q :: q in st.store.payments && q.providerKey == p.providerKey
    ensures Inv(Payments(Move(st, i, phase), payments))
  {
    var next := Payments(Move(st, i, phase), payments);
    var calls := next.calls;
    assert calls[i].Key() == st.calls[i].Key();
    assert Owns(st.calls[i], st.store.idempotency);
    forall k, p | 0 <= k < |calls| && calls[k].phase.Drafting? && p in payments
      ensures p.providerKey != calls[k].ChargeKey()
    {
      assert calls[k] == st.calls[k];
    }
    forall k, m | 0 <= k < m < |calls| && calls[k].InFlight() && calls[m].InFlight()
      ensures calls[k].Key() != calls[m].Key()
    {
      assert calls[k].Key() == st.calls[k].Key() && calls[m].Key() == st.calls[m].Key();
    }
  }

  lemma {:induction false} WithoutIdKeepsKeys(payments: seq<Payment>, id: nat)
    requires OnePaymentPerKey(payments)
    ensures OnePaymentPerKey(WithoutId(payments, id))
  {
    if payments != [] {
      WithoutIdKeepsKeys(payments[1..], id);
      var rest := WithoutId(payments[1..], id);
      forall i | 0 <= i < |rest|
        ensures rest[i].providerKey != payments[0].providerKey
      {
        assert rest[i] in payments[1..];
      }
    }
  }

  lemma {:induction false} WithoutUnknownId(payments: seq<Payment>, id: nat)
    requires !HasId(payments, id)
    ensures WithoutId(payments, id) == payments
  {
    if payments != [] {
      assert payments[0].id != id;
      assert forall i | 0 <= i < |payments[1..]| :: payments[1..][i] == payments[i + 1];
      WithoutUnknownId(payments[1..], id);
    }
  }

  lemma {:induction false} WithoutIdOfLast(payments: seq<Payment>, p: Payment)
    ensures WithoutId(payments + [p], p.id) == WithoutId(payments, p.id)
  {
    if payments == [] {
      assert [p][1..] == [];
    } else {
      assert (payments + [p])[1..] == payments[1..] + [p];
      WithoutIdOfLast(payments[1..], p);
    }
  }

  /** Removing a draft undoes its push: the payments are those before, in their order. */
  lemma DraftRoundTrip(payments: seq<Payment>, id: nat, providerKey: string)
    requires !HasId(payments, id)
    ensures WithoutId(payments + [Payment(id, providerKey, "processing", None)], id) == payments
  {
    WithoutIdOfLast(payments, Payment(id, providerKey, "processing", None));
    WithoutUnknownId(payments, id);
  }

  lemma SamePayments(payments: seq<Payment>)
    ensures forall p | p in payments :: exists q :: q in payments && q.providerKey == p.providerKey
  {
  }

  lemma ViewedKeepsKeys(payments: seq<Payment>, id: nat, view: View)
    requires OnePaymentPerKey(payments)
    ensures OnePaymentPerKey(Viewed(payments, id, view))
    ensures forall p | p in Viewed(payments, id, view) :: exists q :: q in payments && q.providerKey == p.providerKey
  {
    var r := Viewed(payments, id, view);
    forall p | p in r
      ensures exists q :: q in payments && q.providerKey == p.providerKey
    {
      var i :| 0 <= i < |r| && r[i] == p;
      assert payments[i] in payments && payments[i].providerKey == p.providerKey;
    }
  }

  /** A call that ends at once. */
  lemma EndedCallKeepsInv(st: State, c: Call)
    requires Inv(st) && ':' !in c.actor && c.phase.Done?
    ensures Inv(st.(calls := st.calls + [c]))
  {
    var next := st.calls + [c];
    assert forall i | 0 <= i < |st.calls| :: next[i] == st.calls[i] && Owns(st.calls[i], st.store.idempotency);
  }

  /** A call that takes a key without a record. */
  lemma RunningCallKeepsInv(st: State, c: Call)
    requires Inv(st) && ':' !in c.actor && c.phase.Running? && c.Key() !in st.store.idempotency
    ensures Inv(st.(calls := st.calls + [c],
                    store := st.store.(idempotency := st.store.idempotency[c.Key() := InProgress(c.bodyHash)])))
  {
    var next := st.calls + [c];
    assert forall i | 0 <= i < |st.calls| :: next[i] == st.calls[i] && Owns(st.calls[i], st.store.idempotency);
  }

  lemma ArriveKeepsInv(st: State, actor: string, rawKey: string, bodyHash: Digest)
    requires Inv(st) && ':' !in actor
    ensures Inv(DoArrive(st, actor, rawKey, bodyHash))
  {
    if Trim(rawKey) == "" {
      EndedCallKeepsInv(st, Call(actor, rawKey, bodyHash, Done(Some(KEY_REQUIRED))));
    } else {
      match Entered(st.store.idempotency, IdemKey(actor, Trim(rawKey)), bodyHash)
      case Proceed => RunningCallKeepsInv(st, Call(actor, rawKey, bodyHash, Running));
      case Replayed(reply) => EndedCallKeepsInv(st, Call(actor, rawKey, bodyHash, Done(Some(reply))));
      case Refused(reply) => EndedCallKeepsInv(st, Call(actor, rawKey, bodyHash, Done(Some(reply))));
    }
  }

  lemma LookupKeepsInv(st: State, i: nat)
    requires Inv(st) && i < |st.calls| && st.calls[i].phase.Looking?
    ensures Inv(DoLookup(st, i))
  {
    var existing := FindByKey(st.store.payments, st.calls[i].ChargeKey());
    if existing.Some? {
      SamePayments(st.store.payments);
      MoveKeepsInv(st, i, DoLookup(st, i).calls[i].phase, st.store.payments);
      assert Payments(DoLookup(st, i), st.store.payments) == DoLookup(st, i);
    } else {
      DraftingKeepsInv(st, i);
    }
  }

  lemma DraftingKeepsInv(st: State, i: nat)
    requires Inv(st) && i < |st.calls| && st.calls[i].phase.Looking?
    requires forall p | p in st.store.payments :: p.providerKey != st.calls[i].ChargeKey()
    ensures Inv(Move(st, i, Drafting))
  {
    var next := Move(st, i, Drafting);
    assert Owns(st.calls[i], st.store.idempotency);
    forall k, m | 0 <= k < m < |next.calls| && next.calls[k].InFlight() && next.calls[m].InFlight()
      ensures next.calls[k].Key() != next.calls[m].Key()
    {
      assert next.calls[k].Key() == st.calls[k].Key() && next.calls[m].Key() == st.calls[m].Key();
    }
  }

  lemma PushKeepsInv(st: State, i: nat)
    requires Inv(st) && i < |st.calls| && st.calls[i].phase.Drafting?
    ensures Inv(DoPush(st, i))
  {
    var next := DoPush(st, i);
    SamePayments(st.store.payments);
    MoveKeepsInv(st, i, Calling(st.nextId, false), st.store.payments);
    var draft := Payment(st.nextId, st.calls[i].ChargeKey(), "processing", None);
    assert next.store.payments == st.store.payments + [draft];
    assert forall k | 0 <= k < |st.store.payments| :: st.store.payments[k] in st.store.payments;
    forall k, p | 0 <= k < |next.calls| && next.calls[k].phase.Drafting? && p in next.store.payments
      ensures p.providerKey != next.calls[k].ChargeKey()
    {
      assert k != i && next.calls[k] == st.calls[k];
      if p == draft {
        OwnersAreDistinct(st.calls, i, k);
      }
    }
  }

  lemma FinishKeepsInv(st: State, i: nat, ending: Ending)
    requires Inv(st) && i < |st.calls| && st.calls[i].phase == Finishing(ending)
    ensures Inv(DoAdvance(st, i, true))
  {
    var next := DoAdvance(st, i, true);
    assert Owns(st.calls[i], st.store.idempotency);
    forall k | 0 <= k < |next.calls|
      ensures Owns(next.calls[k], next.store.idempotency)
    {
      assert Owns(st.calls[k], st.store.idempotency);
      if k != i && next.calls[k].InFlight() {
        assert if k < i then st.calls[k].Key() != st.calls[i].Key() else st.calls[i].Key() != st.calls[k].Key();
      }
    }
  }

  lemma AdvanceKeepsInv(st: State, i: nat, publicSafe: bool)
    requires Inv(st) && i < |st.calls|
    ensures Inv(DoAdvance(st, i, publicSafe))
  {
    var payments := st.store.payments;
    SamePayments(payments);
    match st.calls[i].phase
    case Removing(id, ending) =>
      WithoutIdKeepsKeys(payments, id);
      MoveKeepsInv(st, i, Finishing(ending), WithoutId(payments, id));
    case Marking(id) =>
      MoveKeepsInv(st, i, Finishing(Fail(OUTCOME_UNKNOWN)), payments);
    case Applying(id, view) =>
      ViewedKeepsKeys(payments, id, view);
      MoveKeepsInv(st, i, Fetching(id), Viewed(payments, id, view));
    case Fetching(id) =>
      MoveKeepsInv(st, i, DoAdvance(st, i, publicSafe).calls[i].phase, payments);
    case Finishing(ending) => FinishKeepsInv(st, i, ending);
    case _ =>
  }

  lemma NextKeepsInv(st: State, step: Step)
    requires Inv(st)
    ensures Inv(Next(st, step))
  {
    SamePayments(st.store.payments);
    match step
    case Arrive(actor, rawKey, bodyHash) =>
      if ':' !in actor { ArriveKeepsInv(st, actor, rawKey, bodyHash); }
    case Check(i, checked) =>
      if i < |st.calls| && st.calls[i].phase.Running? {
        MoveKeepsInv(st, i, Next(st, step).calls[i].phase, st.store.payments);
      }
    case Lookup(i) =>
      if i < |st.calls| && st.calls[i].phase.Looking? { LookupKeepsInv(st, i); }
    case Push(i) =>
      if i < |st.calls| && st.calls[i].phase.Drafting? { PushKeepsInv(st, i); }
    case Answer(i, answer) =>
      if i < |st.calls| && st.calls[i].phase.Calling? {
        MoveKeepsInv(st, i, Next(st, step).calls[i].phase, st.store.payments);
      }
    case Advance(i, publicSafe) =>
      if i < |st.calls| { AdvanceKeepsInv(st, i, publicSafe); }
    case Throw(i, error) =>
      if i < |st.calls| && MayThrow(st.calls[i].phase) {
        MoveKeepsInv(st, i, Finishing(Thrown(error)), st.store.payments);
      }
  }

  function Run(steps: seq<Step>): State {
    if steps == [] then INITIAL else Next(Run(steps[..|steps| - 1]), steps[|steps| - 1])
  }

  lemma {:induction false} EveryRunKeepsInv(steps: seq<Step>)
    ensures Inv(Run(steps))
  {
    if steps != [] {
      EveryRunKeepsInv(steps[..|steps| - 1]);
      NextKeepsInv(Run(steps[..|steps| - 1]), steps[|steps| - 1]);
    }
  }

  // ---------------------------------------------------------------- what the runs guarantee

  /** Under any interleaving, at most one run is in flight for each platform key and at most one payment
      record exists for each provider key. */
  lemma OneRunAndOnePayment(steps: seq<Step>)
    ensures OneRunPerKey(Run(steps).calls) && OnePaymentPerKey(Run(steps).store.payments)
  {
    EveryRunKeepsInv(steps);
  }

  predicate Finished(idempotency: map<string, IdempotencyRecord>, key: string) {
    key in idempotency && !idempotency[key].InProgress?
  }

  /** Once a key has its reply, no step changes it: a repeated request gets the stored reply, and the same
      key with another body is refused. */
  lemma StoredReplyIsFinal(st: State, step: Step, key: string, bodyHash: Digest)
    requires Inv(st) && Finished(st.store.idempotency, key)
    ensures Finished(Next(st, step).store.idempotency, key)
    ensures Next(st, step).store.idempotency[key] == st.store.idempotency[key]
    ensures Entered(Next(st, step).store.idempotency, key, bodyHash)
            == if st.store.idempotency[key].bodyHash == bodyHash then Replayed(st.store.idempotency[key].reply)
               else Refused(KEY_REUSED)
  {
    if step.Advance? && step.call < |st.calls| && st.calls[step.call].phase.Finishing? {
      assert Owns(st.calls[step.call], st.store.idempotency);
    }
  }
}
