/** Which requests for a draft are granted (src/mandates/index.ts), in terms of the checkout, of the drafts that were
    issued before, and of the clock. */
module DraftRequests {
  import opened Outcomes
  import opened Checkouts
  import opened MandateDrafts

  /** The window has begun, less the skew, and is not over; it lies inside the other one and covers a whole second. */
  predicate Usable(env: Env, w: Window, lo: int, hi: int, now: int) {
    && lo <= w.issuedAt.ms && w.expiresAt.ms <= hi
    && w.issuedAt.ms / 1000 < w.expiresAt.ms / 1000
    && w.issuedAt.ms <= now + env.skewMs && now < w.expiresAt.ms
  }

  /** The merchant signed this checkout, and its totals are the sums over its line items. */
  predicate Genuine(env: Env, jwt: string, hash: string, accepted: bool) {
    && accepted && jwt == hash && hash != ""
    && var c := env.content(jwt);
    && c.totals.subtotalMinor == Subtotal(c.lineItems) && c.totals.taxMinor == Tax(c.lineItems)
    && c.totals.discountMinor == Discount(c.lineItems)
    && c.totals.totalMinor == Subtotal(c.lineItems) + Tax(c.lineItems) + c.shipping.GetOr(0) - Discount(c.lineItems) >= 0
  }

  // ---------------------------------------------------------------- checkout drafts

  predicate GrantsCheckout(env: Env, q: CheckoutRequest, now: int, accepted: bool) {
    && Genuine(env, q.jwt, q.hash, accepted) && q.tx != "" && q.user != ""
    && var c := env.content(q.jwt);
    && c.transactionId == q.tx && c.expiresAt - c.issuedAt <= env.maxTtlSeconds * 1000
    && Usable(env, q.window, c.issuedAt, c.expiresAt, now)
  }

  /** A checkout draft is granted exactly when the merchant signed a consistent checkout of this transaction that does
      not run too long, and the window of the draft is usable inside it. */
  lemma CheckoutGrantedIff(env: Env, q: CheckoutRequest, now: int, accepted: bool)
    ensures CheckoutRequestOk(env, q, now, accepted) <==> GrantsCheckout(env, q, now, accepted)
  {
    var c := env.content(q.jwt);
    assert c.issuedAt <= q.window.issuedAt.ms ==> Seconds(c.issuedAt) <= Seconds(q.window.issuedAt.ms);
    assert q.window.expiresAt.ms <= c.expiresAt ==> Seconds(q.window.expiresAt.ms) <= Seconds(c.expiresAt);
  }

  // ---------------------------------------------------------------- payment drafts

  /** The request names a checkout draft that was issued for its transaction, checkout and user, and its window is
      usable inside the window of this draft. */
  predicate Follows(env: Env, d: Draft, p: PaymentRequest, now: int) {
    && d.CheckoutDraft? && d.jti == p.checkoutDraftId && d.jti.BoundId?
    && d.tx == p.tx && d.checkoutHash == p.hash && d.sub == p.user
    && Usable(env, p.window, d.jti.window.issuedAt.ms, d.jti.window.expiresAt.ms, now)
  }

  predicate GrantsPayment(env: Env, issued: seq<Draft>, p: PaymentRequest, now: int, accepted: bool) {
    && accepted && p.jwt == p.hash && env.instrumentOk(p.instrument)
    && var c := env.content(p.jwt);
    && p.payee.id == c.merchantId && Site(p.payee.website) == Site(c.merchantWebsite)
    && p.amountMinor == c.totals.totalMinor && p.currency == c.totals.currency
    && exists i :: 0 <= i < |issued| && Follows(env, issued[i], p, now)
  }

  lemma FollowsStored(env: Env, st: State, d: Draft, p: PaymentRequest, now: int, accepted: bool)
    requires env.audience != "" && d.CheckoutDraft? && d.jti == p.checkoutDraftId && IsStored(st.checkouts, st.payments, d)
    requires CheckoutStored(env, d.jti, st.checkouts[d.jti], st.issued)
    ensures PaymentRequestOk(env, st, p, now, accepted) <==>
              && accepted && p.jwt == p.hash && env.instrumentOk(p.instrument)
              && PayeeIsMerchant(p.payee, env.content(p.jwt))
              && p.amountMinor == env.content(p.jwt).totals.totalMinor && p.currency == env.content(p.jwt).totals.currency
              && Follows(env, d, p, now)
  {
  }

  /** In every run, a payment draft is granted exactly when the merchant still accepts the checkout, the instrument, the
      payee, the amount and the currency are right, and it follows a checkout draft issued before. What was asked of the
      checkout for that draft need not be asked again. */
  lemma PaymentGrantedIff(env: Env, steps: seq<Step>, p: PaymentRequest, now: int, accepted: bool)
    requires env.audience != ""
    ensures PaymentRequestOk(env, Run(env, steps), p, now, accepted)
            <==> GrantsPayment(env, Run(env, steps).issued, p, now, accepted)
  {
    var st := Run(env, steps);
    EveryRunKeepsInv(env, steps);
    if PaymentRequestOk(env, st, p, now, accepted) {
      var d := st.checkouts[p.checkoutDraftId].payloadHash;
      assert CheckoutStored(env, p.checkoutDraftId, st.checkouts[p.checkoutDraftId], st.issued);
      FollowsStored(env, st, d, p, now, accepted);
      var i :| 0 <= i < |st.issued| && st.issued[i] == d;
      assert Follows(env, st.issued[i], p, now);
    }
    if GrantsPayment(env, st.issued, p, now, accepted) {
      var i :| 0 <= i < |st.issued| && Follows(env, st.issued[i], p, now);
      var d := st.issued[i];
      assert IsStored(st.checkouts, st.payments, st.issued[i]);
      assert CheckoutStored(env, d.jti, st.checkouts[d.jti], st.issued);
      FollowsStored(env, st, d, p, now, accepted);
    }
  }

  // ---------------------------------------------------------------- what a granted request comes to

  /** The nonce of the transaction is unused, and so are the call and the id. */
  predicate Unused(st: State, call: nat, tx: string, nonce: string, id: string) {
    tx + ":" + nonce !in st.nonces && call !in st.pending && id !in st.ids
  }

  /** What a checkout draft says. */
  ghost predicate CheckoutDraftOf(env: Env, q: CheckoutRequest, id: string, d: Draft) {
    && d.CheckoutDraft? && d.tx == q.tx && d.checkoutHash == q.hash && d.checkoutJwt == q.jwt && d.sub == q.user
    && d.aud == env.audience && d.nonce == q.nonce && d.jti == BoundId(CheckoutDraftKind, id, q.window)
    && 1000 * d.iat <= q.window.issuedAt.ms < 1000 * d.iat + 1000 && 1000 * d.exp <= q.window.expiresAt.ms < 1000 * d.exp + 1000
  }

  /** What a payment draft says. */
  ghost predicate PaymentDraftOf(env: Env, p: PaymentRequest, id: string, d: Draft) {
    && d.PaymentDraft? && d.tx == p.tx && d.checkoutHash == p.hash && d.checkoutDraftId == p.checkoutDraftId
    && d.payee == p.payee && d.amountMinor == p.amountMinor && d.currency == p.currency && d.instrument == p.instrument
    && d.sub == p.user && d.aud == env.audience && d.nonce == p.nonce && d.jti == BoundId(PaymentDraftKind, id, p.window)
    && 1000 * d.iat <= p.window.issuedAt.ms < 1000 * d.iat + 1000 && 1000 * d.exp <= p.window.expiresAt.ms < 1000 * d.exp + 1000
  }

  /** One more draft is issued, its nonce and id are used, and every other pending draft still waits. */
  ghost predicate IssuesOneMore(st: State, t: State, d: Draft, nonce: string, id: string) {
    && t.issued == st.issued + [d] && t.nonces == st.nonces + {d.tx + ":" + nonce} && t.ids == st.ids + {id}
    && t.pending == st.pending
  }

  lemma ConsumedIsIssued(env: Env, st: State, call: nat, d: Draft, w: Window, id: string)
    requires Unused(st, call, d.tx, d.nonce, id) && RecordOk(d, w)
    ensures IssuesOneMore(st, Next(env, Consume(st, call, d, w, id), Remember(call)), d, d.nonce, id)
  {
    var t := Consume(st, call, d, w, id);
    assert t.pending - {call} == st.pending;
  }

  /** An undisturbed checkout request issues the draft that says what was asked for exactly when it is granted and its
      nonce is unused; otherwise nothing happens. */
  lemma CheckoutIsIssued(env: Env, st: State, call: nat, q: CheckoutRequest, now: int, accepted: bool, id: string)
    requires call !in st.pending && id !in st.ids && env.audience != ""
    ensures var t := Next(env, Next(env, st, DraftCheckout(call, q, now, accepted, id)), Remember(call));
            if GrantsCheckout(env, q, now, accepted) && Unused(st, call, q.tx, q.nonce, id)
            then exists d :: CheckoutDraftOf(env, q, id, d) && IssuesOneMore(st, t, d, q.nonce, id)
            else t == st
  {
    CheckoutGrantedIff(env, q, now, accepted);
    if GrantsCheckout(env, q, now, accepted) && Unused(st, call, q.tx, q.nonce, id) {
      var d := CheckoutPayload(env, q, id);
      ConsumedIsIssued(env, st, call, d, q.window, id);
      assert CheckoutDraftOf(env, q, id, d);
    }
  }

  /** And so does a payment request. */
  lemma PaymentIsIssued(env: Env, steps: seq<Step>, call: nat, p: PaymentRequest, now: int, accepted: bool, id: string)
    requires call !in Run(env, steps).pending && id !in Run(env, steps).ids && env.audience != ""
    ensures var st := Run(env, steps);
            var t := Next(env, Next(env, st, DraftPayment(call, p, now, accepted, id)), Remember(call));
            if GrantsPayment(env, st.issued, p, now, accepted) && Unused(st, call, p.tx, p.nonce, id)
            then exists d :: PaymentDraftOf(env, p, id, d) && IssuesOneMore(st, t, d, p.nonce, id)
            else t == st
  {
    var st := Run(env, steps);
    PaymentGrantedIff(env, steps, p, now, accepted);
    if GrantsPayment(env, st.issued, p, now, accepted) && Unused(st, call, p.tx, p.nonce, id) {
      var d := PaymentPayload(env, p, id);
      GrantedIsFiled(env, st, p, now, accepted, id);
      ConsumedIsIssued(env, st, call, d, p.window, id);
      assert PaymentDraftOf(env, p, id, d);
    }
  }

  lemma GrantedIsFiled(env: Env, st: State, p: PaymentRequest, now: int, accepted: bool, id: string)
    requires PaymentRequestOk(env, st, p, now, accepted)
    ensures RecordOk(PaymentPayload(env, p, id), p.window)
  {
    var r := st.checkouts[p.checkoutDraftId];
    assert r.iat <= Seconds(p.window.issuedAt.ms) < Seconds(p.window.expiresAt.ms);
    assert BoundToWindow(CheckoutDraftKind, p.checkoutDraftId, r.window);
  }
}
