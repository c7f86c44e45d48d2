/** Checkout and payment mandate drafts (src/mandates/index.ts, src/mandates/replay-store.ts,
    src/mandates/canonical.ts:23-67). A hash is represented by what is hashed: the checkout hash by the checkout
    JWT, the payload hash by the payload, and the binding inside a draft id by the window it binds. */
module MandateDrafts {
  import opened Outcomes
  import opened Checkouts
  import opened Text

  /** An ISO timestamp and the milliseconds it parses to. */
  datatype Stamp = Stamp(text: string, ms: int)

  datatype Window = Window(issuedAt: Stamp, expiresAt: Stamp)

  datatype Kind = CheckoutDraftKind | PaymentDraftKind

  /** An id made by bindDraftIdToExactWindow, or any other text. */
  datatype DraftId = BoundId(kind: Kind, opaqueId: string, window: Window) | OtherId(text: string)

  datatype Payee = Payee(id: string, name: string, website: string)

  datatype Instrument = Instrument(id: string, kind: string, masked: string)

  datatype Draft =
    | CheckoutDraft(tx: string, checkoutHash: string, checkoutJwt: string, sub: string, aud: string, iat: int, exp: int,
                    nonce: string, jti: DraftId)
    | PaymentDraft(tx: string, checkoutHash: string, checkoutDraftId: DraftId, payee: Payee, amountMinor: int,
                   currency: string, instrument: Instrument, sub: string, aud: string, iat: int, exp: int,
                   nonce: string, jti: DraftId)

  datatype StoredCheckout = StoredCheckout(
    tx: string, checkoutHash: string, payloadHash: Draft, sub: string, aud: string, window: Window, iat: int, exp: int)

  datatype StoredPayment = StoredPayment(
    tx: string, checkoutHash: string, checkoutDraftId: DraftId, payloadHash: Draft, window: Window, iat: int, exp: int)

  /** The service's settings, what a checkout JWT says, and which payment instruments are opaque and masked. */
  datatype Env = Env(
    content: string -> CheckoutSnapshot, instrumentOk: Instrument -> bool, audience: string, maxTtlSeconds: int, skewMs: int)

  // ---------------------------------------------------------------- pure checks

  predicate ValidPeriod(env: Env, issuedMs: int, expiresMs: int, now: int) {
    && issuedMs < expiresMs && expiresMs - issuedMs <= env.maxTtlSeconds * 1000
    && now < expiresMs && issuedMs <= now + env.skewMs
  }

  function Seconds(ms: int): int {
    ms / 1000
  }

  /** `accepted` is what the merchant's signer says about the JWT. */
  predicate VerifiedCheckout(env: Env, jwt: string, hash: string, tx: string, now: int, accepted: bool) {
    var c := env.content(jwt);
    jwt == hash && accepted && TotalsMatch(c) && ValidPeriod(env, c.issuedAt, c.expiresAt, now) && c.transactionId == tx
  }

  predicate WindowWithin(inner: Window, lo: int, hi: int) {
    inner.issuedAt.ms < inner.expiresAt.ms && lo <= inner.issuedAt.ms && inner.expiresAt.ms <= hi
  }

  predicate CheckoutDraftWindow(c: CheckoutSnapshot, w: Window) {
    c.issuedAt < c.expiresAt && WindowWithin(w, c.issuedAt, c.expiresAt)
  }

  predicate CheckoutDraftSeconds(c: CheckoutSnapshot, iat: int, exp: int) {
    Seconds(c.issuedAt) <= iat < exp <= Seconds(c.expiresAt)
  }

  predicate PaymentDraftWindow(r: StoredCheckout, w: Window) {
    r.window.issuedAt.ms < r.window.expiresAt.ms && WindowWithin(w, r.window.issuedAt.ms, r.window.expiresAt.ms)
  }

  predicate PaymentLineage(r: StoredCheckout, sub: string, aud: string, iat: int, exp: int) {
    sub == r.sub && aud == r.aud && r.iat < r.exp && r.iat <= iat < exp <= r.exp
  }

  predicate BoundToWindow(kind: Kind, id: DraftId, w: Window) {
    id.BoundId? && id.kind == kind && id.window == w
  }

  function Lower(s: string): string {
    seq(|s|, i requires 0 <= i < |s| => if 'A' <= s[i] <= 'Z' then (s[i] as int + 32) as char else s[i])
  }

  function Site(s: string): string {
    Lower(if |s| > 0 && s[|s| - 1] == '/' then s[..|s| - 1] else s)
  }

  predicate PayeeIsMerchant(p: Payee, c: CheckoutSnapshot) {
    p.id == c.merchantId && Site(p.website) == Site(c.merchantWebsite)
  }

  // ---------------------------------------------------------------- the replay store

  predicate CheckoutRecordOk(id: DraftId, r: StoredCheckout) {
    && r.tx != "" && r.checkoutHash != "" && r.sub != "" && r.aud != ""
    && r.window.issuedAt.ms < r.window.expiresAt.ms && r.iat < r.exp
    && Seconds(r.window.issuedAt.ms) == r.iat && Seconds(r.window.expiresAt.ms) == r.exp
    && BoundToWindow(CheckoutDraftKind, id, r.window)
  }

  predicate PaymentRecordOk(id: DraftId, r: StoredPayment) {
    && r.tx != "" && r.checkoutHash != "" && r.checkoutDraftId != OtherId("")
    && r.window.issuedAt.ms < r.window.expiresAt.ms && r.iat < r.exp
    && Seconds(r.window.issuedAt.ms) == r.iat && Seconds(r.window.expiresAt.ms) == r.exp
    && BoundToWindow(PaymentDraftKind, id, r.window)
  }

  function NonceKey(tx: string, nonce: string): string {
    tx + ":" + nonce
  }

  class InMemoryMandateReplayStore {
    var nonces: set<string>
    var checkoutDrafts: map<DraftId, StoredCheckout>
    var paymentDrafts: map<DraftId, StoredPayment>

    constructor ()
      ensures nonces == {} && checkoutDrafts == map[] && paymentDrafts == map[]
    {
      nonces, checkoutDrafts, paymentDrafts := {}, map[], map[];
    }

    method ConsumeNonce(tx: string, nonce: string) returns (unused: bool)
      modifies this`nonces
      ensures unused == (NonceKey(tx, nonce) !in old(nonces))
      ensures nonces == old(nonces) + {NonceKey(tx, nonce)}
    {
      unused := NonceKey(tx, nonce) !in nonces;
      nonces := nonces + {NonceKey(tx, nonce)};
    }

    method RememberCheckoutDraft(id: DraftId, r: StoredCheckout) returns (ok: bool)
      modifies this`checkoutDrafts
      ensures ok == CheckoutRecordOk(id, r)
      ensures checkoutDrafts == if ok then old(checkoutDrafts)[id := r] else old(checkoutDrafts)
    {
      ok := CheckoutRecordOk(id, r);
      if ok {
        checkoutDrafts := checkoutDrafts[id := r];
      }
    }

    method RememberPaymentDraft(id: DraftId, r: StoredPayment) returns (ok: bool)
      modifies this`paymentDrafts
      ensures ok == PaymentRecordOk(id, r)
      ensures paymentDrafts == if ok then old(paymentDrafts)[id := r] else old(paymentDrafts)
    {
      ok := PaymentRecordOk(id, r);
      if ok {
        paymentDrafts := paymentDrafts[id := r];
      }
    }
  }

  // ---------------------------------------------------------------- drafting

  datatype CheckoutRequest = CheckoutRequest(
    jwt: string, hash: string, tx: string, user: string, nonce: string, window: Window)

  datatype PaymentRequest = PaymentRequest(
    jwt: string, hash: string, tx: string, checkoutDraftId: DraftId, payee: Payee, amountMinor: int, currency: string,
    instrument: Instrument, user: string, nonce: string, window: Window)

  /** A draft whose nonce is consumed and which is about to be remembered. */
  datatype Pending = Pending(draft: Draft, window: Window)

  datatype State = State(
    nonces: set<string>, checkouts: map<DraftId, StoredCheckout>, payments: map<DraftId, StoredPayment>,
    ids: set<string>, pending: map<nat, Pending>, issued: seq<Draft>)

  function CheckoutPayload(env: Env, q: CheckoutRequest, id: string): Draft {
    CheckoutDraft(q.tx, q.hash, q.jwt, q.user, env.audience, Seconds(q.window.issuedAt.ms), Seconds(q.window.expiresAt.ms),
                  q.nonce, BoundId(CheckoutDraftKind, id, q.window))
  }

  function PaymentPayload(env: Env, q: PaymentRequest, id: string): Draft {
    PaymentDraft(q.tx, q.hash, q.checkoutDraftId, q.payee, q.amountMinor, q.currency, q.instrument, q.user, env.audience,
                 Seconds(q.window.issuedAt.ms), Seconds(q.window.expiresAt.ms), q.nonce,
                 BoundId(PaymentDraftKind, id, q.window))
  }

  predicate CheckoutRequestOk(env: Env, q: CheckoutRequest, now: int, accepted: bool) {
    && q.tx != "" && q.user != "" && q.hash != ""
    && ValidPeriod(env, q.window.issuedAt.ms, q.window.expiresAt.ms, now)
    && VerifiedCheckout(env, q.jwt, q.hash, q.tx, now, accepted)
    && CheckoutDraftWindow(env.content(q.jwt), q.window)
    && CheckoutDraftSeconds(env.content(q.jwt), Seconds(q.window.issuedAt.ms), Seconds(q.window.expiresAt.ms))
  }

  predicate PaymentRequestOk(env: Env, st: State, q: PaymentRequest, now: int, accepted: bool) {
    && q.tx != "" && q.user != "" && q.hash != ""
    && ValidPeriod(env, q.window.issuedAt.ms, q.window.expiresAt.ms, now)
    && env.instrumentOk(q.instrument)
    && VerifiedCheckout(env, q.jwt, q.hash, q.tx, now, accepted)
    && PayeeIsMerchant(q.payee, env.content(q.jwt))
    && env.content(q.jwt).totals.totalMinor == q.amountMinor && env.content(q.jwt).totals.currency == q.currency
    && q.checkoutDraftId in st.checkouts
    && var r := st.checkouts[q.checkoutDraftId];
    && CheckoutRecordOk(q.checkoutDraftId, r)
    && r.tx == q.tx && r.checkoutHash == q.hash
    && CheckoutDraftWindow(env.content(q.jwt), r.window)
    && BoundToWindow(CheckoutDraftKind, q.checkoutDraftId, r.window)
    && PaymentDraftWindow(r, q.window)
    && PaymentLineage(r, q.user, env.audience, Seconds(q.window.issuedAt.ms), Seconds(q.window.expiresAt.ms))
  }

  datatype Step =
    | DraftCheckout(call: nat, q: CheckoutRequest, now: int, accepted: bool, id: string)
    | DraftPayment(call: nat, p: PaymentRequest, now: int, accepted: bool, id: string)
    | Remember(call: nat)

  function Consume(st: State, call: nat, d: Draft, w: Window, id: string): State {
    if NonceKey(d.tx, d.nonce) in st.nonces || call in st.pending || id in st.ids then st
    else st.(nonces := st.nonces + {NonceKey(d.tx, d.nonce)}, ids := st.ids + {id},
             pending := st.pending[call := Pending(d, w)])
  }

  function RecordOfCheckout(d: Draft, w: Window): StoredCheckout
    requires d.CheckoutDraft?
  {
    StoredCheckout(d.tx, d.checkoutHash, d, d.sub, d.aud, w, d.iat, d.exp)
  }

  function RecordOfPayment(d: Draft, w: Window): StoredPayment
    requires d.PaymentDraft?
  {
    StoredPayment(d.tx, d.checkoutHash, d.checkoutDraftId, d, w, d.iat, d.exp)
  }

  predicate RecordOk(d: Draft, w: Window) {
    if d.CheckoutDraft? then CheckoutRecordOk(d.jti, RecordOfCheckout(d, w))
    else PaymentRecordOk(d.jti, RecordOfPayment(d, w))
  }

  function Filed(st: State, d: Draft, w: Window, rest: map<nat, Pending>): State {
    if d.CheckoutDraft?
    then st.(checkouts := st.checkouts[d.jti := RecordOfCheckout(d, w)], issued := st.issued + [d], pending := rest)
    else st.(payments := st.payments[d.jti := RecordOfPayment(d, w)], issued := st.issued + [d], pending := rest)
  }

  function DoRemember(st: State, call: nat): State
    requires call in st.pending
  {
    var d, w := st.pending[call].draft, st.pending[call].window;
    if RecordOk(d, w) then Filed(st, d, w, st.pending - {call}) else st.(pending := st.pending - {call})
  }

  function Next(env: Env, st: State, step: Step): State {
    match step
    case DraftCheckout(call, q, now, accepted, id) =>
      if CheckoutRequestOk(env, q, now, accepted) then Consume(st, call, CheckoutPayload(env, q, id), q.window, id) else st
    case DraftPayment(call, p, now, accepted, id) =>
      if PaymentRequestOk(env, st, p, now, accepted) then Consume(st, call, PaymentPayload(env, p, id), p.window, id) else st
    case Remember(call) => if call in st.pending then DoRemember(st, call) else st
  }

  const INITIAL := State({}, map[], map[], {}, map[], [])

  function Run(env: Env, steps: seq<Step>): State {
    if steps == [] then INITIAL else Next(env, Run(env, steps[..|steps| - 1]), steps[|steps| - 1])
  }

  // ---------------------------------------------------------------- verifying

  /** What the caller of verifyDraftConsistency supplies. */
  datatype Expectation = Expectation(jwt: string, hash: string, tx: string, user: Option<string>, aud: Option<string>)

  predicate CommonOk(env: Env, x: Expectation, d: Draft, now: int, accepted: bool) {
    && VerifiedCheckout(env, x.jwt, x.hash, x.tx, now, accepted)
    && d.checkoutHash == x.hash && d.tx == x.tx
    && d.aud == x.aud.GetOr(env.audience) && (x.user.Some? ==> d.sub == x.user.value)
    && d.iat < d.exp && now < d.exp * 1000
  }

  predicate CheckoutConsistent(env: Env, st: State, x: Expectation, d: Draft, now: int, accepted: bool)
    requires d.CheckoutDraft?
  {
    && CommonOk(env, x, d, now, accepted)
    && d.checkoutJwt == x.jwt && d.checkoutJwt == d.checkoutHash
    && CheckoutDraftSeconds(env.content(x.jwt), d.iat, d.exp)
    && d.jti in st.checkouts
    && var r := st.checkouts[d.jti];
    && CheckoutRecordOk(d.jti, r)
    && r.tx == d.tx && r.checkoutHash == d.checkoutHash && r.payloadHash == d && r.sub == d.sub && r.aud == d.aud
    && r.iat == d.iat && r.exp == d.exp
    && CheckoutDraftWindow(env.content(x.jwt), r.window)
    && BoundToWindow(CheckoutDraftKind, d.jti, r.window)
  }

  predicate PaymentConsistent(env: Env, st: State, x: Expectation, d: Draft, now: int, accepted: bool)
    requires d.PaymentDraft?
  {
    && env.instrumentOk(d.instrument) && PayeeIsMerchant(d.payee, env.content(x.jwt))
    && CommonOk(env, x, d, now, accepted)
    && d.amountMinor == env.content(x.jwt).totals.totalMinor && d.currency == env.content(x.jwt).totals.currency
    && d.checkoutDraftId in st.checkouts
    && var c := st.checkouts[d.checkoutDraftId];
    && CheckoutRecordOk(d.checkoutDraftId, c)
    && c.tx == d.tx && c.checkoutHash == d.checkoutHash
    && CheckoutDraftWindow(env.content(x.jwt), c.window)
    && BoundToWindow(CheckoutDraftKind, d.checkoutDraftId, c.window)
    && PaymentLineage(c, d.sub, d.aud, d.iat, d.exp)
    && d.jti in st.payments
    && var r := st.payments[d.jti];
    && PaymentRecordOk(d.jti, r)
    && r.tx == d.tx && r.checkoutHash == d.checkoutHash && r.checkoutDraftId == d.checkoutDraftId && r.payloadHash == d
    && r.iat == d.iat && r.exp == d.exp
    && PaymentDraftWindow(c, r.window)
    && BoundToWindow(PaymentDraftKind, d.jti, r.window)
  }

  /** verifyDraftConsistency. */
  predicate Consistent(env: Env, st: State, x: Expectation, d: Draft, now: int, accepted: bool) {
    if d.CheckoutDraft? then CheckoutConsistent(env, st, x, d, now, accepted)
    else PaymentConsistent(env, st, x, d, now, accepted)
  }

  // ---------------------------------------------------------------- what every run keeps

  /** A checkout draft, with its window, as the service makes it: inside the checkout in milliseconds and in
      whole seconds, and bound to its id. */
  predicate CheckoutMade(env: Env, d: Draft, w: Window) {
    && d.CheckoutDraft? && d.checkoutJwt == d.checkoutHash && d.aud == env.audience
    && d.tx != "" && d.sub != "" && d.checkoutHash != ""
    && var c := env.content(d.checkoutHash);
    && TotalsMatch(c) && c.transactionId == d.tx && c.expiresAt - c.issuedAt <= env.maxTtlSeconds * 1000
    && CheckoutDraftWindow(c, w) && CheckoutDraftSeconds(c, d.iat, d.exp)
    && d.iat == Seconds(w.issuedAt.ms) && d.exp == Seconds(w.expiresAt.ms)
    && BoundToWindow(CheckoutDraftKind, d.jti, w)
  }

  predicate PaymentMade(env: Env, checkouts: map<DraftId, StoredCheckout>, d: Draft, w: Window) {
    && d.PaymentDraft? && d.aud == env.audience && d.tx != "" && d.checkoutHash != ""
    && d.checkoutDraftId in checkouts
    && var r, c := checkouts[d.checkoutDraftId], env.content(d.checkoutHash);
    && r.tx == d.tx && r.checkoutHash == d.checkoutHash
    && env.instrumentOk(d.instrument) && PayeeIsMerchant(d.payee, c)
    && d.amountMinor == c.totals.totalMinor && d.currency == c.totals.currency
    && PaymentDraftWindow(r, w) && PaymentLineage(r, d.sub, d.aud, d.iat, d.exp)
    && d.iat == Seconds(w.issuedAt.ms) && d.exp == Seconds(w.expiresAt.ms)
    && BoundToWindow(PaymentDraftKind, d.jti, w)
  }

  predicate Made(env: Env, checkouts: map<DraftId, StoredCheckout>, d: Draft, w: Window) {
    if d.CheckoutDraft? then CheckoutMade(env, d, w) else PaymentMade(env, checkouts, d, w)
  }

  ghost predicate CheckoutStored(env: Env, id: DraftId, r: StoredCheckout, issued: seq<Draft>) {
    && CheckoutMade(env, r.payloadHash, r.window) && r.payloadHash.jti == id && r.payloadHash in issued
    && r == RecordOfCheckout(r.payloadHash, r.window)
  }

  ghost predicate PaymentStored(
    env: Env, checkouts: map<DraftId, StoredCheckout>, id: DraftId, r: StoredPayment, issued: seq<Draft>)
  {
    && PaymentMade(env, checkouts, r.payloadHash, r.window) && r.payloadHash.jti == id && r.payloadHash in issued
    && r == RecordOfPayment(r.payloadHash, r.window)
  }

  type CheckoutTable = map<DraftId, StoredCheckout>
  type PaymentTable = map<DraftId, StoredPayment>
  type Pendings = map<nat, Pending>

  ghost predicate CheckoutsOk(env: Env, checkouts: CheckoutTable, issued: seq<Draft>) {
    forall id | id in checkouts :: CheckoutStored(env, id, checkouts[id], issued)
  }

  ghost predicate PaymentsOk(env: Env, checkouts: CheckoutTable, payments: PaymentTable, issued: seq<Draft>) {
    forall id | id in payments :: PaymentStored(env, checkouts, id, payments[id], issued)
  }

  ghost predicate PendingOk(env: Env, checkouts: CheckoutTable, pending: Pendings) {
    forall n | n in pending :: Made(env, checkouts, pending[n].draft, pending[n].window)
  }

  /** The id and the nonce of the draft are taken. */
  predicate Marked(nonces: set<string>, ids: set<string>, d: Draft) {
    d.jti.BoundId? && d.jti.opaqueId in ids && NonceKey(d.tx, d.nonce) in nonces
  }

  predicate Apart(d: Draft, e: Draft) {
    d.jti != e.jti && NonceKey(d.tx, d.nonce) != NonceKey(e.tx, e.nonce)
  }

  ghost predicate AllMarked(nonces: set<string>, ids: set<string>, issued: seq<Draft>, pending: Pendings) {
    && (forall i | 0 <= i < |issued| :: Marked(nonces, ids, issued[i]))
    && (forall n | n in pending :: Marked(nonces, ids, pending[n].draft))
  }

  ghost predicate AllApart(issued: seq<Draft>, pending: Pendings) {
    && (forall i, j | 0 <= i < j < |issued| :: Apart(issued[i], issued[j]))
    && (forall n, m | n in pending && m in pending && n != m :: Apart(pending[n].draft, pending[m].draft))
    && (forall i, n | 0 <= i < |issued| && n in pending :: Apart(issued[i], pending[n].draft))
  }

  predicate IsStored(checkouts: CheckoutTable, payments: PaymentTable, d: Draft) {
    if d.CheckoutDraft? then d.jti in checkouts && checkouts[d.jti].payloadHash == d
    else d.jti in payments && payments[d.jti].payloadHash == d
  }

  ghost predicate IssuedStored(checkouts: CheckoutTable, payments: PaymentTable, issued: seq<Draft>) {
    forall i | 0 <= i < |issued| :: IsStored(checkouts, payments, issued[i])
  }

  ghost predicate Inv(env: Env, st: State) {
    && CheckoutsOk(env, st.checkouts, st.issued)
    && PaymentsOk(env, st.checkouts, st.payments, st.issued)
    && PendingOk(env, st.checkouts, st.pending)
    && AllMarked(st.nonces, st.ids, st.issued, st.pending)
    && AllApart(st.issued, st.pending)
    && IssuedStored(st.checkouts, st.payments, st.issued)
  }

  lemma CheckoutPayloadMade(env: Env, q: CheckoutRequest, now: int, accepted: bool, id: string)
    requires CheckoutRequestOk(env, q, now, accepted)
    ensures CheckoutMade(env, CheckoutPayload(env, q, id), q.window)
  {
  }

  lemma PaymentPayloadMade(env: Env, st: State, p: PaymentRequest, now: int, accepted: bool, id: string)
    requires PaymentRequestOk(env, st, p, now, accepted)
    ensures PaymentMade(env, st.checkouts, PaymentPayload(env, p, id), p.window)
  {
  }

  lemma MarkNew(nonces: set<string>, ids: set<string>, issued: seq<Draft>, pending: Pendings, call: nat, p: Pending)
    requires AllMarked(nonces, ids, issued, pending) && AllApart(issued, pending) && call !in pending
    requires p.draft.jti.BoundId? && p.draft.jti.opaqueId !in ids && NonceKey(p.draft.tx, p.draft.nonce) !in nonces
    ensures AllMarked(nonces + {NonceKey(p.draft.tx, p.draft.nonce)}, ids + {p.draft.jti.opaqueId}, issued, pending[call := p])
    ensures AllApart(issued, pending[call := p])
  {
    forall i | 0 <= i < |issued|
      ensures Marked(nonces + {NonceKey(p.draft.tx, p.draft.nonce)}, ids + {p.draft.jti.opaqueId}, issued[i])
      ensures Apart(issued[i], p.draft)
    {
      assert Marked(nonces, ids, issued[i]);
    }
    forall n | n in pending
      ensures Marked(nonces + {NonceKey(p.draft.tx, p.draft.nonce)}, ids + {p.draft.jti.opaqueId}, pending[n].draft)
      ensures Apart(pending[n].draft, p.draft)
    {
      assert Marked(nonces, ids, pending[n].draft);
    }
  }

  lemma ConsumeKeepsInv(env: Env, st: State, call: nat, d: Draft, w: Window, id: string)
    requires Inv(env, st) && Made(env, st.checkouts, d, w) && d.jti.BoundId? && d.jti.opaqueId == id
    ensures Inv(env, Consume(st, call, d, w, id))
  {
    if NonceKey(d.tx, d.nonce) !in st.nonces && call !in st.pending && id !in st.ids {
      MarkNew(st.nonces, st.ids, st.issued, st.pending, call, Pending(d, w));
    }
  }

  /** More checkout drafts leave what was made as it is. */
  lemma MoreCheckouts(env: Env, a: CheckoutTable, b: CheckoutTable, d: Draft, w: Window)
    requires Made(env, a, d, w) && forall id | id in a :: id in b && b[id] == a[id]
    ensures Made(env, b, d, w)
  {
  }

  lemma FiledIsIssued(env: Env, st: State, id: DraftId)
    requires CheckoutsOk(env, st.checkouts, st.issued) && PaymentsOk(env, st.checkouts, st.payments, st.issued)
    requires id in st.checkouts || id in st.payments
    ensures exists i :: 0 <= i < |st.issued| && st.issued[i].jti == id
  {
    if id in st.checkouts {
      assert CheckoutStored(env, id, st.checkouts[id], st.issued);
    } else {
      assert PaymentStored(env, st.checkouts, id, st.payments[id], st.issued);
    }
  }

  /** The id of a pending draft is not filed yet. */
  lemma PendingIsUnfiled(env: Env, st: State, call: nat)
    requires Inv(env, st) && call in st.pending
    ensures st.pending[call].draft.jti !in st.checkouts && st.pending[call].draft.jti !in st.payments
  {
    var d := st.pending[call].draft;
    assert forall i | 0 <= i < |st.issued| :: Apart(st.issued[i], d);
    if d.jti in st.checkouts || d.jti in st.payments {
      FiledIsIssued(env, st, d.jti);
    }
  }

  lemma MoveMark(nonces: set<string>, ids: set<string>, issued: seq<Draft>, pending: Pendings, call: nat)
    requires AllMarked(nonces, ids, issued, pending) && AllApart(issued, pending) && call in pending
    ensures AllMarked(nonces, ids, issued + [pending[call].draft], pending - {call})
    ensures AllApart(issued + [pending[call].draft], pending - {call})
  {
  }

  lemma StoredGrows(env: Env, checkouts: CheckoutTable, payments: PaymentTable, issued: seq<Draft>, d: Draft)
    requires CheckoutsOk(env, checkouts, issued) && PaymentsOk(env, checkouts, payments, issued)
    ensures CheckoutsOk(env, checkouts, issued + [d]) && PaymentsOk(env, checkouts, payments, issued + [d])
  {
    forall id | id in checkouts
      ensures CheckoutStored(env, id, checkouts[id], issued + [d])
    {
      assert CheckoutStored(env, id, checkouts[id], issued);
    }
    forall id | id in payments
      ensures PaymentStored(env, checkouts, id, payments[id], issued + [d])
    {
      assert PaymentStored(env, checkouts, id, payments[id], issued);
    }
  }

  lemma PaymentsKept(env: Env, a: CheckoutTable, b: CheckoutTable, payments: PaymentTable, issued: seq<Draft>)
    requires PaymentsOk(env, a, payments, issued) && forall id | id in a :: id in b && b[id] == a[id]
    ensures PaymentsOk(env, b, payments, issued)
  {
    forall id | id in payments
      ensures PaymentStored(env, b, id, payments[id], issued)
    {
      assert PaymentStored(env, a, id, payments[id], issued);
      MoreCheckouts(env, a, b, payments[id].payloadHash, payments[id].window);
    }
  }

  lemma PendingKept(env: Env, a: CheckoutTable, b: CheckoutTable, pending: Pendings)
    requires PendingOk(env, a, pending) && forall id | id in a :: id in b && b[id] == a[id]
    ensures PendingOk(env, b, pending)
  {
    forall n | n in pending
      ensures Made(env, b, pending[n].draft, pending[n].window)
    {
      MoreCheckouts(env, a, b, pending[n].draft, pending[n].window);
    }
  }

  lemma IssuedKept(a: CheckoutTable, b: CheckoutTable, payments: PaymentTable, issued: seq<Draft>)
    requires IssuedStored(a, payments, issued) && forall id | id in a :: id in b && b[id] == a[id]
    ensures IssuedStored(b, payments, issued)
  {
    forall i | 0 <= i < |issued|
      ensures IsStored(b, payments, issued[i])
    {
      assert IsStored(a, payments, issued[i]);
    }
  }

  lemma CheckoutFiled(env: Env, checkouts: CheckoutTable, issued: seq<Draft>, d: Draft, w: Window)
    requires CheckoutsOk(env, checkouts, issued) && CheckoutMade(env, d, w) && d in issued
    ensures CheckoutsOk(env, checkouts[d.jti := RecordOfCheckout(d, w)], issued)
  {
    assert CheckoutStored(env, d.jti, RecordOfCheckout(d, w), issued);
  }

  lemma FileCheckout(env: Env, st: State, d: Draft, w: Window)
    requires Inv(env, st) && CheckoutMade(env, d, w) && d.jti !in st.checkouts
    ensures CheckoutsOk(env, st.checkouts[d.jti := RecordOfCheckout(d, w)], st.issued + [d])
    ensures PaymentsOk(env, st.checkouts[d.jti := RecordOfCheckout(d, w)], st.payments, st.issued + [d])
    ensures PendingOk(env, st.checkouts[d.jti := RecordOfCheckout(d, w)], st.pending)
    ensures IssuedStored(st.checkouts[d.jti := RecordOfCheckout(d, w)], st.payments, st.issued + [d])
  {
    var next := st.checkouts[d.jti := RecordOfCheckout(d, w)];
    StoredGrows(env, st.checkouts, st.payments, st.issued, d);
    CheckoutFiled(env, st.checkouts, st.issued + [d], d, w);
    PaymentsKept(env, st.checkouts, next, st.payments, st.issued + [d]);
    PendingKept(env, st.checkouts, next, st.pending);
    IssuedKept(st.checkouts, next, st.payments, st.issued);
  }

  lemma PaymentFiled(checkouts: CheckoutTable, payments: PaymentTable, issued: seq<Draft>, d: Draft, w: Window)
    requires IssuedStored(checkouts, payments, issued) && d.PaymentDraft? && d.jti !in payments
    ensures IssuedStored(checkouts, payments[d.jti := RecordOfPayment(d, w)], issued + [d])
  {
    forall i | 0 <= i < |issued|
      ensures IsStored(checkouts, payments[d.jti := RecordOfPayment(d, w)], issued[i])
    {
      assert IsStored(checkouts, payments, issued[i]);
    }
  }

  lemma FilePayment(env: Env, st: State, d: Draft, w: Window)
    requires Inv(env, st) && PaymentMade(env, st.checkouts, d, w) && d.jti !in st.payments
    ensures CheckoutsOk(env, st.checkouts, st.issued + [d])
    ensures PaymentsOk(env, st.checkouts, st.payments[d.jti := RecordOfPayment(d, w)], st.issued + [d])
    ensures IssuedStored(st.checkouts, st.payments[d.jti := RecordOfPayment(d, w)], st.issued + [d])
  {
    StoredGrows(env, st.checkouts, st.payments, st.issued, d);
    PaymentFiled(st.checkouts, st.payments, st.issued, d, w);
  }

  lemma PendingShrinks(env: Env, checkouts: CheckoutTable, pending: Pendings, call: nat)
    requires PendingOk(env, checkouts, pending)
    ensures PendingOk(env, checkouts, pending - {call})
  {
  }

  lemma MarksShrink(nonces: set<string>, ids: set<string>, issued: seq<Draft>, pending: Pendings, call: nat)
    requires AllMarked(nonces, ids, issued, pending) && AllApart(issued, pending)
    ensures AllMarked(nonces, ids, issued, pending - {call}) && AllApart(issued, pending - {call})
  {
  }

  lemma ForgottenKeepsInv(env: Env, st: State, call: nat)
    requires Inv(env, st)
    ensures Inv(env, st.(pending := st.pending - {call}))
  {
    PendingShrinks(env, st.checkouts, st.pending, call);
    MarksShrink(st.nonces, st.ids, st.issued, st.pending, call);
  }

  lemma FiledKeepsInv(env: Env, st: State, call: nat, d: Draft, w: Window)
    requires Inv(env, st) && call in st.pending && st.pending[call] == Pending(d, w)
    requires d.jti !in st.checkouts && d.jti !in st.payments
    ensures Inv(env, Filed(st, d, w, st.pending - {call}))
  {
    MoveMark(st.nonces, st.ids, st.issued, st.pending, call);
    assert Made(env, st.checkouts, d, w);
    if d.CheckoutDraft? {
      FileCheckout(env, st, d, w);
      PendingShrinks(env, st.checkouts[d.jti := RecordOfCheckout(d, w)], st.pending, call);
    } else {
      FilePayment(env, st, d, w);
      PendingShrinks(env, st.checkouts, st.pending, call);
    }
  }

  lemma RememberKeepsInv(env: Env, st: State, call: nat)
    requires Inv(env, st) && call in st.pending
    ensures Inv(env, DoRemember(st, call))
  {
    ForgottenKeepsInv(env, st, call);
    PendingIsUnfiled(env, st, call);
    FiledKeepsInv(env, st, call, st.pending[call].draft, st.pending[call].window);
  }

  lemma NextKeepsInv(env: Env, st: State, step: Step)
    requires Inv(env, st)
    ensures Inv(env, Next(env, st, step))
  {
    match step
    case DraftCheckout(call, q, now, accepted, id) =>
      if CheckoutRequestOk(env, q, now, accepted) {
        CheckoutPayloadMade(env, q, now, accepted, id);
        ConsumeKeepsInv(env, st, call, CheckoutPayload(env, q, id), q.window, id);
      }
    case DraftPayment(call, p, now, accepted, id) =>
      if PaymentRequestOk(env, st, p, now, accepted) {
        PaymentPayloadMade(env, st, p, now, accepted, id);
        ConsumeKeepsInv(env, st, call, PaymentPayload(env, p, id), p.window, id);
      }
    case Remember(call) =>
      if call in st.pending {
        RememberKeepsInv(env, st, call);
      }
  }

  lemma {:induction false} EveryRunKeepsInv(env: Env, steps: seq<Step>)
    ensures Inv(env, Run(env, steps))
  {
    if steps != [] {
      EveryRunKeepsInv(env, steps[..|steps| - 1]);
      NextKeepsInv(env, Run(env, steps[..|steps| - 1]), steps[|steps| - 1]);
    }
  }

  // ---------------------------------------------------------------- what verification means

  /** Every payload verifyDraftConsistency accepts is one the service itself issued. */
  lemma AcceptedWasIssued(env: Env, steps: seq<Step>, x: Expectation, d: Draft, now: int, accepted: bool)
    requires Consistent(env, Run(env, steps), x, d, now, accepted)
    ensures d in Run(env, steps).issued
  {
    EveryRunKeepsInv(env, steps);
    var st := Run(env, steps);
    if d.CheckoutDraft? {
      assert CheckoutStored(env, d.jti, st.checkouts[d.jti], st.issued);
    } else {
      assert PaymentStored(env, st.checkouts, d.jti, st.payments[d.jti], st.issued);
    }
  }

  /** What can still refuse a payload the service issued: the signer, the caller's expectations and the clock. */
  predicate StillGood(env: Env, x: Expectation, d: Draft, now: int, accepted: bool) {
    && accepted && x.jwt == x.hash && x.hash == d.checkoutHash && x.tx == d.tx
    && d.aud == x.aud.GetOr(env.audience) && (x.user.Some? ==> d.sub == x.user.value)
    && now < d.exp * 1000 && env.content(x.jwt).issuedAt <= now + env.skewMs
  }

  lemma MadeCheckoutVerifies(env: Env, st: State, x: Expectation, d: Draft, now: int, accepted: bool)
    requires d.CheckoutDraft? && env.audience != "" && IsStored(st.checkouts, st.payments, d)
    requires CheckoutStored(env, d.jti, st.checkouts[d.jti], st.issued)
    ensures CheckoutConsistent(env, st, x, d, now, accepted) <==> StillGood(env, x, d, now, accepted)
  {
  }

  lemma MadePaymentVerifies(env: Env, st: State, x: Expectation, d: Draft, now: int, accepted: bool)
    requires d.PaymentDraft? && env.audience != "" && IsStored(st.checkouts, st.payments, d)
    requires PaymentStored(env, st.checkouts, d.jti, st.payments[d.jti], st.issued)
    requires CheckoutStored(env, d.checkoutDraftId, st.checkouts[d.checkoutDraftId], st.issued)
    requires PaymentRecordOk(d.jti, st.payments[d.jti])
    ensures PaymentConsistent(env, st, x, d, now, accepted) <==> StillGood(env, x, d, now, accepted)
  {
  }

  /** An issued payload is accepted exactly as long as the signer accepts the checkout, the caller expects its
      transaction, audience and user, and it has not expired: none of the stored lineage can turn on it. */
  lemma IssuedIsAcceptedIff(env: Env, steps: seq<Step>, x: Expectation, d: Draft, now: int, accepted: bool)
    requires d in Run(env, steps).issued && env.audience != ""
    ensures Consistent(env, Run(env, steps), x, d, now, accepted) <==> StillGood(env, x, d, now, accepted)
  {
    EveryRunKeepsInv(env, steps);
    var st := Run(env, steps);
    var i :| 0 <= i < |st.issued| && st.issued[i] == d;
    assert IsStored(st.checkouts, st.payments, st.issued[i]);
    if d.CheckoutDraft? {
      assert CheckoutStored(env, d.jti, st.checkouts[d.jti], st.issued);
      MadeCheckoutVerifies(env, st, x, d, now, accepted);
    } else {
      assert PaymentStored(env, st.checkouts, d.jti, st.payments[d.jti], st.issued);
      assert CheckoutStored(env, d.checkoutDraftId, st.checkouts[d.checkoutDraftId], st.issued);
      MadePaymentVerifies(env, st, x, d, now, accepted);
    }
  }

  /** The windows of an issued payment draft nest in its checkout draft's, and those in the checkout's, in
      milliseconds and in whole seconds; its amount is what the line items come to. */
  lemma IssuedPaymentIsNested(env: Env, steps: seq<Step>, d: Draft)
    requires d in Run(env, steps).issued && d.PaymentDraft?
    ensures d.jti.BoundId? && d.checkoutDraftId.BoundId?
    ensures var c, p, k := env.content(d.checkoutHash), d.jti.window, d.checkoutDraftId.window;
            && c.issuedAt <= k.issuedAt.ms <= p.issuedAt.ms < p.expiresAt.ms <= k.expiresAt.ms <= c.expiresAt
            && Seconds(c.issuedAt) <= Seconds(k.issuedAt.ms) <= d.iat < d.exp <= Seconds(k.expiresAt.ms) <= Seconds(c.expiresAt)
            && d.iat == Seconds(p.issuedAt.ms) && d.exp == Seconds(p.expiresAt.ms)
            && d.amountMinor == Subtotal(c.lineItems) + Tax(c.lineItems) + c.shipping.GetOr(0) - Discount(c.lineItems)
  {
    EveryRunKeepsInv(env, steps);
    var st := Run(env, steps);
    var i :| 0 <= i < |st.issued| && st.issued[i] == d;
    assert IsStored(st.checkouts, st.payments, st.issued[i]);
    assert PaymentStored(env, st.checkouts, d.jti, st.payments[d.jti], st.issued);
    assert CheckoutStored(env, d.checkoutDraftId, st.checkouts[d.checkoutDraftId], st.issued);
  }

  /** No pair of transaction and nonce ever issues two drafts. */
  lemma NoNonceIssuesTwice(env: Env, steps: seq<Step>, i: nat, j: nat)
    requires i < j < |Run(env, steps).issued|
    ensures (Run(env, steps).issued[i].tx, Run(env, steps).issued[i].nonce)
            != (Run(env, steps).issued[j].tx, Run(env, steps).issued[j].nonce)
  {
    EveryRunKeepsInv(env, steps);
    assert Apart(Run(env, steps).issued[i], Run(env, steps).issued[j]);
  }

  // ---------------------------------------------------------------- when two pairs share a nonce key

  lemma SplitInTransaction(a: string, m: string, i: nat)
    requires i < |a| && a[i] == ':'
    ensures NonceKey(a[..i], a[i + 1..] + ":" + m) == NonceKey(a, m)
  {
    assert a == a[..i] + ":" + a[i + 1..];
  }

  lemma SplitInNonce(a: string, m: string, i: nat)
    requires i < |m| && m[i] == ':'
    ensures NonceKey(a + ":" + m[..i], m[i + 1..]) == NonceKey(a, m)
  {
    assert m == m[..i] + ":" + m[i + 1..];
  }

  lemma PlainPairIsAlone(a: string, m: string, b: string, n: string)
    requires ':' !in a && ':' !in m && NonceKey(b, n) == NonceKey(a, m)
    ensures b == a && n == m
  {
    var key := NonceKey(a, m);
    forall i | 0 <= i < |key| && i != |a|
      ensures key[i] != ':'
    {
      assert if i < |a| then key[i] in a else key[i] in m;
    }
    assert key[|b|] == ':';
    assert key[..|a|] == a && key[..|b|] == b;
    assert key[|a| + 1..] == m && key[|b| + 1..] == n;
  }

  /** A pair of transaction and nonce shares its nonce key with another pair if and only if one of its two parts
      contains the separator. */
  lemma NonceKeySharedIff(a: string, m: string)
    ensures (exists b, n :: (b != a || n != m) && NonceKey(b, n) == NonceKey(a, m)) <==> ':' in a || ':' in m
  {
    if ':' in a {
      var i :| 0 <= i < |a| && a[i] == ':';
      SplitInTransaction(a, m, i);
    } else if ':' in m {
      var i :| 0 <= i < |m| && m[i] == ':';
      SplitInNonce(a, m, i);
      assert a + ":" + m[..i] != a;
    } else {
      forall b, n | NonceKey(b, n) == NonceKey(a, m)
        ensures b == a && n == m
      {
        PlainPairIsAlone(a, m, b, n);
      }
    }
  }

  /** The same for identifiers, which are never empty: what matters is a separator with text on both sides. */
  lemma NonceKeySharedByIdsIff(a: string, m: string)
    requires a != "" && m != ""
    ensures (exists b, n :: b != "" && n != "" && (b != a || n != m) && NonceKey(b, n) == NonceKey(a, m))
            <==> ':' in a[1..] || ':' in m[..|m| - 1]
  {
    if ':' in a[1..] {
      var i: nat :| i < |a| - 1 && a[1..][i] == ':';
      SplitInTransaction(a, m, i + 1);
    } else if ':' in m[..|m| - 1] {
      var i: nat :| i < |m| - 1 && m[..|m| - 1][i] == ':';
      SplitInNonce(a, m, i);
      assert a + ":" + m[..i] != a;
    } else {
      forall b, n | b != "" && n != "" && NonceKey(b, n) == NonceKey(a, m)
        ensures b == a && n == m
      {
        InnerlyPlainPairIsAlone(a, m, b, n);
      }
    }
  }

  lemma InnerlyPlainPairIsAlone(a: string, m: string, b: string, n: string)
    requires a != "" && m != "" && b != "" && n != ""
    requires ':' !in a[1..] && ':' !in m[..|m| - 1] && NonceKey(b, n) == NonceKey(a, m)
    ensures b == a && n == m
  {
    var key := NonceKey(a, m);
    forall i | 0 < i < |key| - 1 && i != |a|
      ensures key[i] != ':'
    {
      assert if i < |a| then key[i] == a[1..][i - 1] else key[i] == m[..|m| - 1][i - |a| - 1];
    }
    assert key[|b|] == ':';
    assert key[..|a|] == a && key[..|b|] == b;
    assert key[|a| + 1..] == m && key[|b| + 1..] == n;
  }

  lemma NonceStays(env: Env, st: State, step: Step, key: string)
    requires key in st.nonces
    ensures key in Next(env, st, step).nonces
  {
  }

  lemma {:induction false} NonceStaysInRun(env: Env, before: seq<Step>, more: seq<Step>, key: string)
    requires key in Run(env, before).nonces
    ensures key in Run(env, before + more).nonces
  {
    if more == [] {
      assert before + more == before;
    } else {
      var init := more[..|more| - 1];
      assert (before + more)[..|before + more| - 1] == before + init;
      NonceStaysInRun(env, before, init, key);
      NonceStays(env, Run(env, before + init), more[|more| - 1], key);
    }
  }

  /** Once one pair has got as far as its nonce, no request with another pair of the same key is ever drafted,
      however valid it is. */
  lemma SharedKeyIsRefused(env: Env, before: seq<Step>, first: Step, between: seq<Step>, second: Step)
    requires first.DraftCheckout? && second.DraftCheckout?
    requires NonceKey(first.q.tx, first.q.nonce) == NonceKey(second.q.tx, second.q.nonce)
    requires Run(env, before + [first]) != Run(env, before)
    ensures Run(env, before + [first] + between + [second]) == Run(env, before + [first] + between)
  {
    var key := NonceKey(first.q.tx, first.q.nonce);
    assert (before + [first])[..|before|] == before;
    assert key in Run(env, before + [first]).nonces;
    NonceStaysInRun(env, before + [first], between, key);
    var done := before + [first] + between;
    assert (done + [second])[..|done|] == done;
  }

  /** An order for any transaction; its JWT is written like the transaction. */
  function OrderOf(tx: string): CheckoutSnapshot {
    CheckoutSnapshot(tx, "shop", "https://shop", [], None, Totals(0, 0, 0, 0, "ARS"), 0, 60_000)
  }

  const SHOP := Env((jwt: string) => OrderOf(jwt), (i: Instrument) => true, "juno", 600, 0)

  function DraftOf(call: nat, tx: string, nonce: string, id: string): Step {
    DraftCheckout(call, CheckoutRequest(tx, tx, tx, "user", nonce, Window(Stamp("0", 0), Stamp("60", 60_000))), 0, true, id)
  }

  lemma OrderAccepted(call: nat, tx: string, nonce: string, id: string)
    requires tx != ""
    ensures CheckoutRequestOk(SHOP, DraftOf(call, tx, nonce, id).q, 0, true)
  {
    assert TotalsMatch(OrderOf(tx));
  }

  lemma DraftedAlone(env: Env, step: Step)
    requires step.DraftCheckout? && CheckoutRequestOk(env, step.q, step.now, step.accepted)
    ensures Run(env, [step]) != INITIAL
  {
    assert [step][..0] == [];
    assert step.call in Run(env, [step]).pending;
  }

  /** Wherever two pairs share a key both are drafted when they come alone, and after either of them the other
      is refused for ever. */
  lemma ValidDraftRefused(a: string, m: string, b: string, n: string, id: string, di: string, between: seq<Step>)
    requires a != "" && b != "" && NonceKey(a, m) == NonceKey(b, n)
    ensures Run(SHOP, [DraftOf(0, a, m, id)]) != INITIAL && Run(SHOP, [DraftOf(1, b, n, di)]) != INITIAL
    ensures Run(SHOP, [DraftOf(0, a, m, id)] + between + [DraftOf(1, b, n, di)])
            == Run(SHOP, [DraftOf(0, a, m, id)] + between)
  {
    var first, second := DraftOf(0, a, m, id), DraftOf(1, b, n, di);
    OrderAccepted(0, a, m, id);
    OrderAccepted(1, b, n, di);
    DraftedAlone(SHOP, first);
    DraftedAlone(SHOP, second);
    assert [] + [first] == [first];
    SharedKeyIsRefused(SHOP, [], first, between, second);
  }
}
