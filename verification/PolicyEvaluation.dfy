/** MandatePolicyEvaluator of src/mandates/policy.ts: what the two open mandates together permit. */
module PolicyEvaluation {
  import opened Outcomes
  import opened PolicyLedger
  import opened OpenMandates
  import opened Checkouts

  datatype Request = Request(
    checkout: CheckoutSnapshot, payeeId: string, instrument: string, pispId: Option<string>, now: int)

  datatype Code =
    | InactiveMandate | ExpiredMandate | ProofMissing | CurrencyNotAllowed | AmountOutOfRange
    | MerchantNotAllowed | PayeeNotAllowed | InstrumentNotAllowed | PispNotAllowed
    | ProductNotAllowed | SupplierRequired | SupplierNotAllowed | QuantityExceeded

  datatype Reason = Reason(code: Code, detail: string)

  /** An absent id and the empty id are both missing. */
  predicate Missing(id: Option<string>) {
    id.None? || id.value == ""
  }

  predicate ItemPermitted(item: LineItem, c: Constraints) {
    && (c.productIds.Some? ==> item.productId in c.productIds.value)
    && (c.supplierIds.Some? ==> !Missing(item.supplierId) && item.supplierId.value in c.supplierIds.value)
  }

  predicate HeaderPermitted(q: Request, m: OpenMandate) {
    var c := m.terms.constraints;
    && m.status == Active
    && q.now < m.terms.expiresAt
    && m.activationProof.Some? && m.activationProof.value.payloadHash == m.canonicalPayloadHash
    && q.checkout.totals.currency == c.currency
    && c.minAmountMinor <= q.checkout.totals.totalMinor <= c.maxAmountMinor
    && q.checkout.merchantId in c.merchantIds
    && q.payeeId in c.payeeIds
    && q.instrument == c.paymentInstrumentAlias
    && (c.allowedPisp.Some? ==> !Missing(q.pispId) && q.pispId == c.allowedPisp)
  }

  /** What one open mandate allows: its header conditions, each line item, and the quantity of each product
      added over all line items. */
  ghost predicate Permits(q: Request, m: OpenMandate) {
    && HeaderPermitted(q, m)
    && (forall i | 0 <= i < |q.checkout.lineItems| :: ItemPermitted(q.checkout.lineItems[i], m.terms.constraints))
    && (forall p | HasProduct(q.checkout.lineItems, p) ::
          QuantityOf(q.checkout.lineItems, p) <= m.terms.constraints.maxQuantityPerProduct)
  }

  ghost predicate HasProduct(items: seq<LineItem>, p: string) {
    exists i :: 0 <= i < |items| && items[i].productId == p
  }

  /** A line item of the product names no supplier. */
  ghost predicate LacksSupplier(items: seq<LineItem>, p: string) {
    exists i :: 0 <= i < |items| && items[i].productId == p && Missing(items[i].supplierId)
  }

  ghost predicate NamesSupplier(items: seq<LineItem>, supplier: string) {
    exists i :: 0 <= i < |items| && items[i].supplierId == Some(supplier)
  }

  /** The condition each reason stands for. */
  ghost predicate Explains(r: Reason, q: Request, m: OpenMandate) {
    var c := m.terms.constraints;
    match r.code
    case InactiveMandate => r.detail == m.id && m.status != Active
    case ExpiredMandate => r.detail == m.id && m.terms.expiresAt <= q.now
    case ProofMissing =>
      r.detail == m.id && (m.activationProof.None? || m.activationProof.value.payloadHash != m.canonicalPayloadHash)
    case CurrencyNotAllowed => r.detail == m.id && q.checkout.totals.currency != c.currency
    case AmountOutOfRange =>
      r.detail == m.id && !(c.minAmountMinor <= q.checkout.totals.totalMinor <= c.maxAmountMinor)
    case MerchantNotAllowed => r.detail == m.id && q.checkout.merchantId !in c.merchantIds
    case PayeeNotAllowed => r.detail == m.id && q.payeeId !in c.payeeIds
    case InstrumentNotAllowed => r.detail == m.id && q.instrument != c.paymentInstrumentAlias
    case PispNotAllowed => r.detail == m.id && c.allowedPisp.Some? && (Missing(q.pispId) || q.pispId != c.allowedPisp)
    case ProductNotAllowed =>
      c.productIds.Some? && r.detail !in c.productIds.value && HasProduct(q.checkout.lineItems, r.detail)
    case SupplierRequired => c.supplierIds.Some? && LacksSupplier(q.checkout.lineItems, r.detail)
    case SupplierNotAllowed =>
      c.supplierIds.Some? && r.detail !in c.supplierIds.value && r.detail != "" && NamesSupplier(q.checkout.lineItems, r.detail)
    case QuantityExceeded =>
      HasProduct(q.checkout.lineItems, r.detail) && QuantityOf(q.checkout.lineItems, r.detail) > c.maxQuantityPerProduct
  }

  predicate AboutItems(code: Code) {
    code in {ProductNotAllowed, SupplierRequired, SupplierNotAllowed}
  }

  predicate AboutState(code: Code) {
    code in {InactiveMandate, ExpiredMandate, ProofMissing, CurrencyNotAllowed, AmountOutOfRange}
  }

  predicate AboutParties(code: Code) {
    code in {MerchantNotAllowed, PayeeNotAllowed, InstrumentNotAllowed, PispNotAllowed}
  }

  /** `reasons.push` under a condition. */
  method PushIf(reasons: seq<Reason>, failed: bool, r: Reason) returns (next: seq<Reason>)
    ensures forall x :: x in next <==> x in reasons || (failed && x == r)
  {
    next := if failed then reasons + [r] else reasons;
  }

  /** The reasons in the state of the mandate and the amount. */
  method StateReasons(q: Request, m: OpenMandate) returns (reasons: seq<Reason>)
    ensures forall r :: r in reasons <==> AboutState(r.code) && Explains(r, q, m)
  {
    var c, total := m.terms.constraints, q.checkout.totals.totalMinor;
    reasons := PushIf([], m.status != Active, Reason(InactiveMandate, m.id));
    reasons := PushIf(reasons, m.terms.expiresAt <= q.now, Reason(ExpiredMandate, m.id));
    reasons := PushIf(reasons, m.activationProof.None? || m.activationProof.value.payloadHash != m.canonicalPayloadHash,
                      Reason(ProofMissing, m.id));
    reasons := PushIf(reasons, q.checkout.totals.currency != c.currency, Reason(CurrencyNotAllowed, m.id));
    reasons := PushIf(reasons, total < c.minAmountMinor || total > c.maxAmountMinor, Reason(AmountOutOfRange, m.id));
  }

  /** The reasons in who is paid, with what, and by whom. */
  method PartyReasons(q: Request, m: OpenMandate) returns (reasons: seq<Reason>)
    ensures forall r :: r in reasons <==> AboutParties(r.code) && Explains(r, q, m)
  {
    var c := m.terms.constraints;
    reasons := PushIf([], q.checkout.merchantId !in c.merchantIds, Reason(MerchantNotAllowed, m.id));
    reasons := PushIf(reasons, q.payeeId !in c.payeeIds, Reason(PayeeNotAllowed, m.id));
    reasons := PushIf(reasons, q.instrument != c.paymentInstrumentAlias, Reason(InstrumentNotAllowed, m.id));
    reasons := PushIf(reasons, c.allowedPisp.Some? && (Missing(q.pispId) || q.pispId != c.allowedPisp),
                      Reason(PispNotAllowed, m.id));
  }

  /** The quantities added up per product over a prefix of the line items. */
  ghost predicate CountsProducts(quantities: map<string, int>, items: seq<LineItem>) {
    && (forall p :: p in quantities <==> HasProduct(items, p))
    && (forall p :: QuantityOf(items, p) == if p in quantities then quantities[p] else 0)
  }

  lemma CountsOneMore(quantities: map<string, int>, items: seq<LineItem>, item: LineItem)
    requires CountsProducts(quantities, items)
    ensures CountsProducts(
              quantities[item.productId :=
                (if item.productId in quantities then quantities[item.productId] else 0) + item.quantity],
              items + [item])
  {
    var more := items + [item];
    assert more[..|items|] == items;
    forall p
      ensures HasProduct(more, p) <==> HasProduct(items, p) || p == item.productId
    {
      if HasProduct(items, p) {
        var k :| 0 <= k < |items| && items[k].productId == p;
        assert more[k].productId == p;
      }
      assert more[|items|].productId == item.productId;
    }
  }

  /** A reason about one line item. */
  predicate ItemExplains(r: Reason, item: LineItem, c: Constraints) {
    match r.code
    case ProductNotAllowed => r.detail == item.productId && c.productIds.Some? && item.productId !in c.productIds.value
    case SupplierRequired => r.detail == item.productId && c.supplierIds.Some? && Missing(item.supplierId)
    case SupplierNotAllowed =>
      c.supplierIds.Some? && !Missing(item.supplierId) && r.detail == item.supplierId.value && r.detail !in c.supplierIds.value
    case _ => false
  }

  ghost predicate SomeItemExplains(r: Reason, items: seq<LineItem>, c: Constraints) {
    exists i :: 0 <= i < |items| && ItemExplains(r, items[i], c)
  }

  lemma SomeOfOneMore(r: Reason, items: seq<LineItem>, item: LineItem, c: Constraints)
    ensures SomeItemExplains(r, items + [item], c) <==> SomeItemExplains(r, items, c) || ItemExplains(r, item, c)
  {
    var more := items + [item];
    if SomeItemExplains(r, items, c) {
      var i :| 0 <= i < |items| && ItemExplains(r, items[i], c);
      assert ItemExplains(r, more[i], c);
    }
    if ItemExplains(r, item, c) {
      assert ItemExplains(r, more[|items|], c);
    }
  }

  lemma ItemsExplain(r: Reason, q: Request, m: OpenMandate)
    requires AboutItems(r.code)
    ensures Explains(r, q, m) <==> SomeItemExplains(r, q.checkout.lineItems, m.terms.constraints)
  {
  }

  /** The reasons that one line item adds. */
  method ReasonsOf(item: LineItem, c: Constraints) returns (reasons: seq<Reason>)
    ensures forall r :: r in reasons <==> ItemExplains(r, item, c)
  {
    reasons := PushIf([], c.productIds.Some? && item.productId !in c.productIds.value,
                      Reason(ProductNotAllowed, item.productId));
    reasons := PushIf(reasons, c.supplierIds.Some? && Missing(item.supplierId), Reason(SupplierRequired, item.productId));
    reasons := PushIf(reasons, c.supplierIds.Some? && !Missing(item.supplierId)
                               && item.supplierId.value !in c.supplierIds.value,
                      Reason(SupplierNotAllowed, item.supplierId.GetOr("")));
  }

  method ItemReasons(q: Request, m: OpenMandate) returns (reasons: seq<Reason>, quantities: map<string, int>)
    ensures forall r :: r in reasons <==> AboutItems(r.code) && Explains(r, q, m)
    ensures CountsProducts(quantities, q.checkout.lineItems)
  {
    var c, items := m.terms.constraints, q.checkout.lineItems;
    reasons, quantities := [], map[];
    var i := 0;
    while i < |items|
      invariant 0 <= i <= |items|
      invariant forall r :: r in reasons <==> SomeItemExplains(r, items[..i], c)
      invariant CountsProducts(quantities, items[..i])
    {
      var item := items[i];
      CountsOneMore(quantities, items[..i], item);
      assert items[..i + 1] == items[..i] + [item];
      quantities := quantities[item.productId :=
        (if item.productId in quantities then quantities[item.productId] else 0) + item.quantity];
      var more := ReasonsOf(item, c);
      forall r
        ensures r in reasons + more <==> SomeItemExplains(r, items[..i + 1], c)
      {
        SomeOfOneMore(r, items[..i], item, c);
      }
      reasons := reasons + more;
      i := i + 1;
    }
    assert items[..i] == items;
    forall r
      ensures r in reasons <==> AboutItems(r.code) && Explains(r, q, m)
    {
      if AboutItems(r.code) {
        ItemsExplain(r, q, m);
      }
    }
  }

  method QuantityReasons(q: Request, m: OpenMandate, quantities: map<string, int>) returns (reasons: seq<Reason>)
    requires CountsProducts(quantities, q.checkout.lineItems)
    ensures forall r :: r in reasons <==> r.code == QuantityExceeded && Explains(r, q, m)
  {
    reasons := [];
    var todo := quantities.Keys;
    while todo != {}
      invariant todo <= quantities.Keys
      invariant forall r :: r in reasons <==>
                  r.code == QuantityExceeded && r.detail in quantities && r.detail !in todo
                  && quantities[r.detail] > m.terms.constraints.maxQuantityPerProduct
      decreases todo
    {
      var p :| p in todo;
      if quantities[p] > m.terms.constraints.maxQuantityPerProduct {
        reasons := reasons + [Reason(QuantityExceeded, p)];
      }
      todo := todo - {p};
    }
  }

  /** A mandate permits a request exactly when there is no reason against it. */
  lemma PermitsIff(q: Request, m: OpenMandate)
    ensures Permits(q, m) <==> forall r :: !Explains(r, q, m)
  {
    var items, c := q.checkout.lineItems, m.terms.constraints;
    if Permits(q, m) {
      forall r
        ensures !Explains(r, q, m)
      {
        if AboutItems(r.code) {
          ItemsExplain(r, q, m);
        }
      }
    } else if !HeaderPermitted(q, m) {
      HeaderRefused(q, m);
    } else if i :| 0 <= i < |items| && !ItemPermitted(items[i], c) {
      var r := if c.productIds.Some? && items[i].productId !in c.productIds.value then Reason(ProductNotAllowed, items[i].productId)
               else if Missing(items[i].supplierId) then Reason(SupplierRequired, items[i].productId)
               else Reason(SupplierNotAllowed, items[i].supplierId.value);
      assert ItemExplains(r, items[i], c);
      ItemsExplain(r, q, m);
    } else {
      var p :| HasProduct(items, p) && QuantityOf(items, p) > c.maxQuantityPerProduct;
      assert Explains(Reason(QuantityExceeded, p), q, m);
    }
  }

  lemma HeaderRefused(q: Request, m: OpenMandate)
    requires !HeaderPermitted(q, m)
    ensures exists r :: Explains(r, q, m)
  {
    var c, total := m.terms.constraints, q.checkout.totals.totalMinor;
    var code := if m.status != Active then InactiveMandate
                else if m.terms.expiresAt <= q.now then ExpiredMandate
                else if q.checkout.totals.currency != c.currency then CurrencyNotAllowed
                else if total < c.minAmountMinor || total > c.maxAmountMinor then AmountOutOfRange
                else if q.checkout.merchantId !in c.merchantIds then MerchantNotAllowed
                else if q.payeeId !in c.payeeIds then PayeeNotAllowed
                else if q.instrument != c.paymentInstrumentAlias then InstrumentNotAllowed
                else if c.allowedPisp.Some? && (Missing(q.pispId) || q.pispId != c.allowedPisp) then PispNotAllowed
                else ProofMissing;
    assert Explains(Reason(code, m.id), q, m);
  }

  class MandatePolicyEvaluator {
    constructor () {}

    /** Allowed exactly when both mandates permit the request; the reasons are all the conditions that fail. */
    method Evaluate(q: Request, openCheckout: OpenMandate, openPayment: OpenMandate)
      returns (allowed: bool, reasons: seq<Reason>)
      ensures allowed <==> Permits(q, openCheckout) && Permits(q, openPayment)
      ensures allowed <==> reasons == []
      ensures forall r :: r in reasons <==> Explains(r, q, openCheckout) || Explains(r, q, openPayment)
    {
      var checkoutReasons := MandateReasons(q, openCheckout);
      var paymentReasons := MandateReasons(q, openPayment);
      reasons := checkoutReasons + paymentReasons;
      allowed := |reasons| == 0;
    }

    method MandateReasons(q: Request, m: OpenMandate) returns (reasons: seq<Reason>)
      ensures forall r :: r in reasons <==> Explains(r, q, m)
      ensures reasons == [] <==> Permits(q, m)
    {
      var state := StateReasons(q, m);
      var parties := PartyReasons(q, m);
      var items, quantities := ItemReasons(q, m);
      var totals := QuantityReasons(q, m, quantities);
      reasons := state + parties + items + totals;
      PermitsIff(q, m);
      if reasons != [] {
        assert reasons[0] in reasons && Explains(reasons[0], q, m);
      }
    }
  }
}
