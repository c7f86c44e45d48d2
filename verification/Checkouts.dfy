/** Merchant checkout snapshots and the arithmetic of their totals (src/mandates/types.ts, src/mandates/index.ts). */
module Checkouts {
  import opened Outcomes

  datatype LineItem = LineItem(
    productId: string, supplierId: Option<string>, quantity: int,
    unitAmountMinor: int, taxAmountMinor: int, discountAmountMinor: int)

  datatype Totals = Totals(subtotalMinor: int, taxMinor: int, discountMinor: int, totalMinor: int, currency: string)

  datatype CheckoutSnapshot = CheckoutSnapshot(
    transactionId: string, merchantId: string, merchantWebsite: string, lineItems: seq<LineItem>,
    shipping: Option<int>, totals: Totals, issuedAt: int, expiresAt: int)

  function QuantityOf(items: seq<LineItem>, productId: string): int {
    if items == [] then 0
    else
      var last := items[|items| - 1];
      QuantityOf(items[..|items| - 1], productId) + if last.productId == productId then last.quantity else 0
  }

  /** What the buyer is charged for the items alone, and the tax and discount they carry. */
  function Subtotal(items: seq<LineItem>): int {
    if items == [] then 0
    else Subtotal(items[..|items| - 1]) + items[|items| - 1].quantity * items[|items| - 1].unitAmountMinor
  }

  function Tax(items: seq<LineItem>): int {
    if items == [] then 0 else Tax(items[..|items| - 1]) + items[|items| - 1].taxAmountMinor
  }

  function Discount(items: seq<LineItem>): int {
    if items == [] then 0 else Discount(items[..|items| - 1]) + items[|items| - 1].discountAmountMinor
  }

  predicate TotalsMatch(c: CheckoutSnapshot) {
    && c.totals.subtotalMinor == Subtotal(c.lineItems)
    && c.totals.taxMinor == Tax(c.lineItems)
    && c.totals.discountMinor == Discount(c.lineItems)
    && c.totals.totalMinor
       == Subtotal(c.lineItems) + Tax(c.lineItems) + c.shipping.GetOr(0) - Discount(c.lineItems)
    && c.totals.totalMinor >= 0
  }

  /** verifyTotals: accepts exactly the checkouts whose declared totals are the sums over their line items. */
  method VerifyTotals(c: CheckoutSnapshot) returns (ok: bool)
    ensures ok <==> TotalsMatch(c)
  {
    var subtotal, tax, discount := 0, 0, 0;
    var i := 0;
    while i < |c.lineItems|
      invariant 0 <= i <= |c.lineItems|
      invariant subtotal == Subtotal(c.lineItems[..i])
      invariant tax == Tax(c.lineItems[..i])
      invariant discount == Discount(c.lineItems[..i])
    {
      var item := c.lineItems[i];
      assert c.lineItems[..i + 1][..i] == c.lineItems[..i];
      subtotal := subtotal + item.quantity * item.unitAmountMinor;
      tax := tax + item.taxAmountMinor;
      discount := discount + item.discountAmountMinor;
      i := i + 1;
    }
    assert c.lineItems[..i] == c.lineItems;
    var expectedTotal := subtotal + tax + c.shipping.GetOr(0) - discount;
    ok := !(subtotal != c.totals.subtotalMinor || tax != c.totals.taxMinor || discount != c.totals.discountMinor
            || expectedTotal != c.totals.totalMinor || expectedTotal < 0);
  }
}
