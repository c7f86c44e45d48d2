/** What the draft checks ask of the replay store (src/mandates/index.ts:363-504, src/mandates/replay-store.ts:1-90),
    whatever is in it: of a store that was tampered with as much as of the service's own. */
module DraftLineage {
  import opened Outcomes
  import opened Checkouts
  import opened MandateDrafts
  import opened DraftRequests

  /** These are the whole seconds of the window. */
  predicate SecondsOf(w: Window, iat: int, exp: int) {
    1000 * iat <= w.issuedAt.ms < 1000 * iat + 1000 && 1000 * exp <= w.expiresAt.ms < 1000 * exp + 1000
  }

  /** The id was made for this window, and the window covers a whole second. */
  predicate BoundFor(kind: Kind, id: DraftId, w: Window, iat: int, exp: int) {
    id.BoundId? && id == BoundId(kind, id.opaqueId, w) && SecondsOf(w, iat, exp) && iat < exp
  }

  predicate SoundCheckout(id: DraftId, r: StoredCheckout) {
    && BoundFor(CheckoutDraftKind, id, r.window, r.iat, r.exp)
    && "" !in [r.tx, r.checkoutHash, r.sub, r.aud]
  }

  predicate SoundPayment(id: DraftId, r: StoredPayment) {
    && BoundFor(PaymentDraftKind, id, r.window, r.iat, r.exp)
    && "" !in [r.tx, r.checkoutHash] && r.checkoutDraftId != OtherId("")
  }

  /** The store takes in a record exactly when its id was made for its window, its seconds are those of the window, and
      nothing is missing. */
  lemma RecordIsSoundIff(id: DraftId, c: StoredCheckout, p: StoredPayment)
    ensures CheckoutRecordOk(id, c) <==> SoundCheckout(id, c)
    ensures PaymentRecordOk(id, p) <==> SoundPayment(id, p)
  {
  }

  predicate Nested(inner: Window, lo: int, hi: int) {
    lo <= inner.issuedAt.ms < inner.expiresAt.ms <= hi
  }

  /** The merchant accepts the checkout, and the clock is in its period, less the skew. */
  predicate Current(env: Env, jwt: string, hash: string, tx: string, now: int, accepted: bool) {
    && Genuine(env, jwt, hash, accepted)
    && var c := env.content(jwt);
    && c.transactionId == tx && now < c.expiresAt && c.issuedAt <= now + env.skewMs
    && 0 < c.expiresAt - c.issuedAt <= 1000 * env.maxTtlSeconds
  }

  /** The payload is about what the caller expects, and has not expired. */
  predicate Expected(env: Env, x: Expectation, d: Draft, now: int) {
    && x.hash == d.checkoutHash && x.tx == d.tx && (x.user.None? || x.user.value == d.sub)
    && d.aud == (if x.aud.Some? then x.aud.value else env.audience) && now < 1000 * d.exp
  }

  /** A checkout payload is consistent exactly when the checkout is current, it is what the caller expects, and the store
      has a sound record under its id that says the same, whose window lies in the checkout. */
  lemma CheckoutConsistentIff(env: Env, st: State, x: Expectation, d: Draft, now: int, accepted: bool)
    requires d.CheckoutDraft? && x.hash != ""
    ensures CheckoutConsistent(env, st, x, d, now, accepted) <==>
              && Current(env, x.jwt, x.hash, x.tx, now, accepted) && Expected(env, x, d, now)
              && d.checkoutJwt == x.jwt && d.jti in st.checkouts
              && var r, c := st.checkouts[d.jti], env.content(x.jwt);
              && SoundCheckout(d.jti, r) && Nested(r.window, c.issuedAt, c.expiresAt)
              && r == StoredCheckout(d.tx, d.checkoutHash, d, d.sub, d.aud, r.window, d.iat, d.exp)
  {
    if d.jti in st.checkouts {
      var r, c := st.checkouts[d.jti], env.content(x.jwt);
      assert c.issuedAt <= r.window.issuedAt.ms ==> Seconds(c.issuedAt) <= Seconds(r.window.issuedAt.ms);
      assert r.window.expiresAt.ms <= c.expiresAt ==> Seconds(r.window.expiresAt.ms) <= Seconds(c.expiresAt);
    }
  }

  /** What a payment says about its checkout. */
  predicate Pays(env: Env, payee: Payee, amountMinor: int, currency: string, instrument: Instrument, c: CheckoutSnapshot) {
    && env.instrumentOk(instrument) && payee.id == c.merchantId && Site(payee.website) == Site(c.merchantWebsite)
    && amountMinor == c.totals.totalMinor && currency == c.totals.currency
  }

  /** The record of the checkout draft is sound, is about this transaction, checkout, user and audience, and lies in the
      checkout. */
  predicate Precedes(env: Env, id: DraftId, r: StoredCheckout, tx: string, hash: string, sub: string, aud: string) {
    && SoundCheckout(id, r) && r.tx == tx && r.checkoutHash == hash && r.sub == sub && r.aud == aud
    && Nested(r.window, env.content(hash).issuedAt, env.content(hash).expiresAt)
  }

  /** A payment payload is consistent exactly when in addition it pays this checkout and follows a sound record of its
      checkout draft, with its own window inside that of the draft. */
  lemma PaymentConsistentIff(env: Env, st: State, x: Expectation, d: Draft, now: int, accepted: bool)
    requires d.PaymentDraft? && x.hash != ""
    ensures PaymentConsistent(env, st, x, d, now, accepted) <==>
              && Current(env, x.jwt, x.hash, x.tx, now, accepted) && Expected(env, x, d, now)
              && Pays(env, d.payee, d.amountMinor, d.currency, d.instrument, env.content(x.jwt))
              && d.checkoutDraftId in st.checkouts && d.jti in st.payments
              && var c, r := st.checkouts[d.checkoutDraftId], st.payments[d.jti];
              && Precedes(env, d.checkoutDraftId, c, d.tx, d.checkoutHash, d.sub, d.aud)
              && SoundPayment(d.jti, r) && Nested(r.window, c.window.issuedAt.ms, c.window.expiresAt.ms)
              && r == StoredPayment(d.tx, d.checkoutHash, d.checkoutDraftId, d, r.window, d.iat, d.exp)
  {
    if d.checkoutDraftId in st.checkouts && d.jti in st.payments {
      var c, r := st.checkouts[d.checkoutDraftId], st.payments[d.jti];
      assert c.window.issuedAt.ms <= r.window.issuedAt.ms ==> Seconds(c.window.issuedAt.ms) <= Seconds(r.window.issuedAt.ms);
      assert r.window.expiresAt.ms <= c.window.expiresAt.ms ==> Seconds(r.window.expiresAt.ms) <= Seconds(c.window.expiresAt.ms);
    }
  }

  /** And a payment draft is granted on the same terms. */
  lemma PaymentRequestIff(env: Env, st: State, p: PaymentRequest, now: int, accepted: bool)
    ensures PaymentRequestOk(env, st, p, now, accepted) <==>
              && Current(env, p.jwt, p.hash, p.tx, now, accepted)
              && Pays(env, p.payee, p.amountMinor, p.currency, p.instrument, env.content(p.jwt))
              && p.checkoutDraftId in st.checkouts
              && var r := st.checkouts[p.checkoutDraftId];
              && Precedes(env, p.checkoutDraftId, r, p.tx, p.hash, p.user, env.audience)
              && Usable(env, p.window, r.window.issuedAt.ms, r.window.expiresAt.ms, now)
  {
    if p.checkoutDraftId in st.checkouts {
      var w, v := st.checkouts[p.checkoutDraftId].window, p.window;
      assert w.issuedAt.ms <= v.issuedAt.ms ==> Seconds(w.issuedAt.ms) <= Seconds(v.issuedAt.ms);
      assert v.expiresAt.ms <= w.expiresAt.ms ==> Seconds(v.expiresAt.ms) <= Seconds(w.expiresAt.ms);
    }
  }
}
