/** The rows of one customer order, and the audits the marketplace runs over them.

    Every amount is what the NUMERIC(20,4) column stores, in units of 0.0001. */
module Orders {
  import opened Outcomes
  import opened Sums

  /** Per-line financial allocation. */
  datatype Allocation = Allocation(
    gross: int, shipping: int, discount: int, fee: int, net: int,
    currency: string, seller: int, market: int)

  datatype Payout = Payout(
    gross: int, sellerFunded: int, platformFunded: int, fee: int, net: int, currency: string)

  /** One seller's part of a customer order: the marketplace order and the customer-facing
      seller order (whose total is `childTotal`), its line totals, allocations and payout. */
  datatype SellerOrder = SellerOrder(
    seller: int, market: int, currency: string,
    subtotal: int, shipping: int, fee: int, total: int,
    childTotal: int,
    lines: seq<int>,
    allocations: seq<Allocation>,
    payout: Payout)

  datatype Funding = BySeller | ByPlatform | Shared

  /** A persisted discount, for the seller order at index `order`. */
  datatype DiscountRow = DiscountRow(
    order: nat, seller: int, promotion: Option<int>, coupon: Option<int>, funding: Funding,
    amount: int, sellerAmount: int, platformAmount: int, currency: string)

  datatype CustomerStatus = PendingPayment | Paid

  datatype Book = Book(
    currency: string, subtotal: int, shipping: int, total: int, status: CustomerStatus,
    orders: seq<SellerOrder>, discounts: seq<DiscountRow>)

  function Identity(x: int): int { x }

  function GrossOf(a: Allocation): int { a.gross }

  function ShippingOf(a: Allocation): int { a.shipping }

  function DiscountOf(a: Allocation): int { a.discount }

  function FeeOf(a: Allocation): int { a.fee }

  function NetOf(a: Allocation): int { a.net }

  function AmountOf(d: DiscountRow): int { d.amount }

  function SellerAmountOf(d: DiscountRow): int { d.sellerAmount }

  function PlatformAmountOf(d: DiscountRow): int { d.platformAmount }

  function OrderSubtotal(o: SellerOrder): int { o.subtotal }

  function OrderShipping(o: SellerOrder): int { o.shipping }

  function OrderTotal(o: SellerOrder): int { o.total }

  function ChildTotal(o: SellerOrder): int { o.childTotal }

  /** The discount rows of the seller order at index i. */
  function RowsOf(rows: seq<DiscountRow>, i: nat): seq<DiscountRow> {
    if rows == [] then []
    else
      var init := RowsOf(rows[..|rows| - 1], i);
      if rows[|rows| - 1].order == i then init + [rows[|rows| - 1]] else init
  }

  lemma RowsOfAppend(rows: seq<DiscountRow>, d: DiscountRow, i: nat)
    ensures RowsOf(rows + [d], i) == if d.order == i then RowsOf(rows, i) + [d] else RowsOf(rows, i)
  {
    assert (rows + [d])[..|rows|] == rows;
  }

  predicate FundingConserved(d: DiscountRow) { d.sellerAmount + d.platformAmount == d.amount }

  predicate FundingMatchesSource(d: DiscountRow) {
    match d.funding
    case BySeller => d.sellerAmount == d.amount && d.platformAmount == 0
    case ByPlatform => d.sellerAmount == 0 && d.platformAmount == d.amount
    case Shared => d.sellerAmount + d.platformAmount == d.amount
  }

  /** The checks on the order's own amounts, its lines and its allocations. */
  predicate OrderChecks(o: SellerOrder, rows: seq<DiscountRow>) {
    var gross := SumOf(GrossOf, o.allocations);
    var discount := SumOf(DiscountOf, o.allocations);
    var fee := SumOf(FeeOf, o.allocations);
    && o.total == o.subtotal + o.shipping - SumOf(AmountOf, rows)
    && SumOf(Identity, o.lines) == o.subtotal
    && gross == SumOf(Identity, o.lines)
    && SumOf(ShippingOf, o.allocations) == o.shipping
    && fee == o.fee
    && discount == SumOf(SellerAmountOf, rows)
    && SumOf(NetOf, o.allocations) == o.subtotal + o.shipping - discount - fee
    && |o.allocations| == |o.lines|
    && (forall a :: a in o.allocations ==> a.currency == o.currency && a.seller == o.seller && a.market == o.market)
  }

  /** The checks on the discount rows that concern the order. */
  predicate DiscountChecks(o: SellerOrder, rows: seq<DiscountRow>) {
    && (forall d :: d in rows ==> FundingConserved(d) && FundingMatchesSource(d))
    && SumOf(SellerAmountOf, rows) + SumOf(PlatformAmountOf, rows) == SumOf(AmountOf, rows)
    && (forall d :: d in rows ==> d.seller == o.seller && d.currency == o.currency)
  }

  predicate PayoutChecks(o: SellerOrder, rows: seq<DiscountRow>) {
    && o.payout.gross == o.subtotal + o.shipping
    && o.payout.sellerFunded == SumOf(SellerAmountOf, rows)
    && o.payout.platformFunded == SumOf(PlatformAmountOf, rows)
    && o.payout.fee == o.fee
    && o.payout.net == o.payout.gross - o.payout.sellerFunded - o.payout.fee
    && o.payout.currency == o.currency
  }

  predicate CustomerChecks(b: Book, o: SellerOrder) {
    && SumOf(OrderSubtotal, b.orders) == b.subtotal
    && SumOf(OrderShipping, b.orders) == b.shipping
    && SumOf(ChildTotal, b.orders) == b.total
    && o.currency == b.currency
  }

  /** `assert_financial_invariants` for the seller order at index i. */
  predicate Audit(b: Book, i: nat)
    requires i < |b.orders|
  {
    var rows := RowsOf(b.discounts, i);
    && OrderChecks(b.orders[i], rows)
    && DiscountChecks(b.orders[i], rows)
    && PayoutChecks(b.orders[i], rows)
    && CustomerChecks(b, b.orders[i])
  }

  predicate AuditAll(b: Book) {
    forall i :: 0 <= i < |b.orders| ==> Audit(b, i)
  }

  /** The CHECK constraints on a financial-allocation row. */
  predicate AllocationConstraints(a: Allocation) {
    && a.gross >= 0 && a.shipping >= 0 && a.discount >= 0 && a.fee >= 0 && a.net >= 0
    && a.discount <= a.gross + a.shipping
    && a.net == a.gross + a.shipping - a.discount - a.fee
  }

  /** The CHECK constraint on a payout row. */
  predicate PayoutConstraints(p: Payout) {
    p.gross >= p.fee && p.sellerFunded >= 0 && p.platformFunded >= 0 && p.net == p.gross - p.sellerFunded - p.fee
  }

  predicate OrderConstraints(o: SellerOrder) {
    && o.subtotal >= 0 && o.shipping >= 0 && o.fee >= 0 && o.total >= 0 && o.childTotal >= 0
    && PayoutConstraints(o.payout)
    && forall a :: a in o.allocations ==> AllocationConstraints(a)
  }
}
