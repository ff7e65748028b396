/** Order discounts: how a discount reaches the seller orders, payouts and line allocations.

    Requested amounts are already in units (they are rounded on entry). */
module Discount {
  import opened Money
  import opened Orders
  import opened Outcomes
  import opened Sums
  import Split

  /** One requested allocation; `shared` carries the two parts when both sides fund it. */
  datatype Item = Item(order: int, amount: int, shared: Option<(int, int)>)

  datatype Request = Request(
    items: seq<Item>, promotion: Option<int>, coupon: Option<int>, funding: Funding, currency: Option<string>)

  datatype Error =
    | LockedAfterPayment
    | CurrencyMismatch
    | NegativeDiscount
    | SharedNeedsBothParts
    | SharedNotConserved
    | DuplicateSellerOrder
    | UnknownSellerOrder
    | ExceedsSellerSubtotal
    | ExistsWithOtherFunding
    | ConstraintViolation
    | ExceedsCustomerSubtotal

  /** What the stored rows guarantee of each order: the constraints, and one allocation per line. */
  predicate StoredOrder(o: SellerOrder) {
    OrderConstraints(o) && |o.allocations| == |o.lines| && o.lines != []
  }

  predicate StoredBook(b: Book) {
    forall i :: 0 <= i < |b.orders| ==> StoredOrder(b.orders[i])
  }

  // ---------------------------------------------------------------- one allocation

  function FundedParts(funding: Funding, item: Item): Result<(int, int), Error> {
    match funding
    case BySeller => Ok((item.amount, 0))
    case ByPlatform => Ok((0, item.amount))
    case Shared =>
      if item.shared.None? then Err(SharedNeedsBothParts)
      else
        var (s, p) := item.shared.value;
        if s < 0 || p < 0 || s + p != item.amount then Err(SharedNotConserved) else Ok((s, p))
  }

  function FindRow(rows: seq<DiscountRow>, order: nat, promotion: Option<int>,
                   coupon: Option<int>): (r: Option<DiscountRow>)
    ensures r.Some? ==>
              r.value in rows && r.value.order == order && r.value.promotion == promotion && r.value.coupon == coupon
    ensures r.None? ==> forall d :: d in rows ==> !(d.order == order && d.promotion == promotion && d.coupon == coupon)
  {
    if rows == [] then None
    else if rows[0].order == order && rows[0].promotion == promotion && rows[0].coupon == coupon then Some(rows[0])
    else FindRow(rows[1..], order, promotion, coupon)
  }

  function SpreadLine(a: Allocation, share: int): Allocation {
    a.(discount := a.discount + share, net := a.gross + a.shipping - (a.discount + share) - a.fee)
  }

  function SpreadLines(allocations: seq<Allocation>, shares: seq<int>): (r: seq<Allocation>)
    requires |allocations| == |shares|
    ensures |r| == |allocations|
  {
    seq(|shares|, i requires 0 <= i < |shares| => SpreadLine(allocations[i], shares[i]))
  }

  /** The seller-funded part, split over the lines by line total (half-even, last takes the rest). */
  function Spread(o: SellerOrder, sellerFunded: int): (r: seq<Allocation>)
    requires StoredOrder(o)
    ensures |r| == |o.allocations|
  {
    SpreadLines(o.allocations, Split.Shares(Split.HalfEven, sellerFunded, o.lines, o.subtotal))
  }

  function DiscountOrder(o: SellerOrder, amount: int, sellerFunded: int, platformFunded: int): SellerOrder
    requires StoredOrder(o)
  {
    var total := o.subtotal + o.shipping - amount;
    var p := o.payout;
    o.(total := total, childTotal := total,
       allocations := Spread(o, sellerFunded),
       payout := p.(sellerFunded := p.sellerFunded + sellerFunded,
                    platformFunded := p.platformFunded + platformFunded,
                    net := p.gross - (p.sellerFunded + sellerFunded) - p.fee))
  }

  function ApplyItem(b: Book, req: Request, item: Item): (r: Result<Book, Error>)
    requires StoredBook(b)
    ensures r.Ok? ==> StoredBook(r.value)
  {
    if item.amount < 0 then Err(NegativeDiscount)
    else
      var parts :- FundedParts(req.funding, item);
      if item.order < 0 || item.order >= |b.orders| then Err(UnknownSellerOrder)
      else if item.amount > b.orders[item.order].subtotal then Err(ExceedsSellerSubtotal)
      else
        var o := b.orders[item.order];
        var existing := FindRow(b.discounts, item.order, req.promotion, req.coupon);
        if existing.Some? then
          var e := existing.value;
          if e.amount != item.amount || e.sellerAmount != parts.0 || e.platformAmount != parts.1 then
            Err(ExistsWithOtherFunding)
          else Ok(b)
        else
          var row := DiscountRow(item.order, o.seller, req.promotion, req.coupon, req.funding, item.amount, parts.0,
                                 parts.1, b.currency);
          var o' := DiscountOrder(o, item.amount, parts.0, parts.1);
          if !OrderConstraints(o') then Err(ConstraintViolation)
          else Ok(b.(orders := b.orders[item.order := o'], discounts := b.discounts + [row]))
  }

  /** The allocation loop, with its duplicate check. */
  function ApplyItems(b: Book, req: Request, n: nat): (r: Result<Book, Error>)
    requires StoredBook(b) && n <= |req.items|
    ensures r.Ok? ==> StoredBook(r.value)
  {
    if n == 0 then Ok(b)
    else
      var before :- ApplyItems(b, req, n - 1);
      var item := req.items[n - 1];
      if item.amount >= 0 && FundedParts(req.funding, item).Ok? && SeenBefore(req.items, n - 1) then
        Err(DuplicateSellerOrder)
      else ApplyItem(before, req, item)
  }

  predicate SeenBefore(items: seq<Item>, n: nat)
    requires n < |items|
  {
    exists k :: 0 <= k < n && items[k].order == items[n].order
  }

  function ItemAmount(i: Item): int { i.amount }

  /** `allocate_order_discount`. */
  function Allocate(b: Book, req: Request): Result<Book, Error>
    requires StoredBook(b)
  {
    if b.status != PendingPayment then Err(LockedAfterPayment)
    else if req.currency.Some? && req.currency.value != b.currency then Err(CurrencyMismatch)
    else
      var applied :- ApplyItems(b, req, |req.items|);
      if SumOf(ItemAmount, req.items) > b.subtotal then Err(ExceedsCustomerSubtotal)
      else Ok(applied.(total := SumOf(ChildTotal, applied.orders)))
  }

  /** What any accepted item leaves alone, and the totals it writes. */
  lemma AcceptedItem(b: Book, req: Request, item: Item)
    requires StoredBook(b) && ApplyItem(b, req, item).Ok?
    ensures var b' := ApplyItem(b, req, item).value;
            && item.amount >= 0 && FundedParts(req.funding, item).Ok? && 0 <= item.order < |b.orders| == |b'.orders|
            && b'.(orders := b.orders, discounts := b.discounts) == b
            && forall j :: 0 <= j < |b.orders| ==>
                 b'.orders[j] == b.orders[j] || b'.orders[j].childTotal == b'.orders[j].total
  {
  }

  // ---------------------------------------------------------------- effect on one order

  /** The checks of the audit except the order total and the customer amounts. */
  ghost predicate Core(o: SellerOrder, rows: seq<DiscountRow>) {
    OrderChecks(o.(total := o.subtotal + o.shipping - SumOf(AmountOf, rows)), rows) && DiscountChecks(o, rows)
    && PayoutChecks(o, rows)
  }

  lemma SpreadSums(o: SellerOrder, sellerFunded: int)
    requires StoredOrder(o)
    ensures var a := Spread(o, sellerFunded);
            && SumOf(DiscountOf, a) == SumOf(DiscountOf, o.allocations) + sellerFunded
            && SumOf(GrossOf, a) == SumOf(GrossOf, o.allocations)
            && SumOf(ShippingOf, a) == SumOf(ShippingOf, o.allocations)
            && SumOf(FeeOf, a) == SumOf(FeeOf, o.allocations)
            && SumOf(NetOf, a) == SumOf(GrossOf, a) + SumOf(ShippingOf, a) - SumOf(DiscountOf, a) - SumOf(FeeOf, a)
  {
    var a := Spread(o, sellerFunded);
    var shares := Split.Shares(Split.HalfEven, sellerFunded, o.lines, o.subtotal);
    SumSame(GrossOf, a, GrossOf, o.allocations);
    SumSame(ShippingOf, a, ShippingOf, o.allocations);
    SumSame(FeeOf, a, FeeOf, o.allocations);
    DiscountColumn(o.allocations, shares, a);
    NetColumn(a);
    Split.SharesSumExactly(Split.HalfEven, sellerFunded, o.lines, o.subtotal);
  }

  lemma SpreadKeepsOwners(o: SellerOrder, sellerFunded: int)
    requires StoredOrder(o)
    requires forall a :: a in o.allocations ==> a.currency == o.currency && a.seller == o.seller && a.market == o.market
    ensures forall a :: a in Spread(o, sellerFunded) ==>
              a.currency == o.currency && a.seller == o.seller && a.market == o.market
  {
    hide Split.Shares, OrderConstraints;
    forall a | a in Spread(o, sellerFunded)
      ensures a.currency == o.currency && a.seller == o.seller && a.market == o.market
    {
      var i :| 0 <= i < |o.allocations| && Spread(o, sellerFunded)[i] == a;
      assert o.allocations[i] in o.allocations;
    }
  }

  lemma {:induction false} DiscountColumn(before: seq<Allocation>, shares: seq<int>, after: seq<Allocation>)
    requires |before| == |shares| == |after|
    requires forall i :: 0 <= i < |after| ==> after[i].discount == before[i].discount + shares[i]
    ensures SumOf(DiscountOf, after) == SumOf(DiscountOf, before) + SumOf(Split.Identity, shares)
  {
    if after != [] {
      var n := |after| - 1;
      DiscountColumn(before[..n], shares[..n], after[..n]);
    }
  }

  lemma {:induction false} NetColumn(a: seq<Allocation>)
    requires forall i :: 0 <= i < |a| ==> a[i].net == a[i].gross + a[i].shipping - a[i].discount - a[i].fee
    ensures SumOf(NetOf, a) == SumOf(GrossOf, a) + SumOf(ShippingOf, a) - SumOf(DiscountOf, a) - SumOf(FeeOf, a)
  {
    if a != [] { NetColumn(a[..|a| - 1]); }
  }

  /** One discounted order: its lines absorb exactly the seller-funded part, its payout net drops by
      exactly that part, and its total matches its rows exactly when there was no earlier discount. */
  lemma DiscountedOrder(o: SellerOrder, rows: seq<DiscountRow>, row: DiscountRow)
    requires StoredOrder(o) && Core(o, rows)
    requires row.seller == o.seller && row.currency == o.currency && FundingConserved(row) && FundingMatchesSource(row)
    ensures var o' := DiscountOrder(o, row.amount, row.sellerAmount, row.platformAmount);
            && Core(o', rows + [row])
            && (o'.total == o'.subtotal + o'.shipping - SumOf(AmountOf, rows + [row]) <==> SumOf(AmountOf, rows) == 0)
            && o'.payout.net == o.payout.net - row.sellerAmount
            && SumOf(DiscountOf, o'.allocations) == SumOf(DiscountOf, o.allocations) + row.sellerAmount
            && SumOf(NetOf, o'.allocations) == SumOf(NetOf, o.allocations) - row.sellerAmount
            && o'.childTotal == o'.total
  {
    hide Spread, OrderConstraints, SumOf;
    var o' := DiscountOrder(o, row.amount, row.sellerAmount, row.platformAmount);
    SpreadSums(o, row.sellerAmount);
    SumAppend(AmountOf, rows, row);
    SumAppend(SellerAmountOf, rows, row);
    SumAppend(PlatformAmountOf, rows, row);
    SpreadKeepsOwners(o, row.sellerAmount);
  }

  // ---------------------------------------------------------------- effect on the book

  function PriorDiscount(b: Book, i: nat): int { SumOf(AmountOf, RowsOf(b.discounts, i)) }

  /** Everything the audit demands apart from the order totals and the customer total. */
  ghost predicate CoreBook(b: Book) {
    && (forall i :: 0 <= i < |b.orders| ==>
        Core(b.orders[i], RowsOf(b.discounts, i)) && b.orders[i].currency == b.currency)
    && SumOf(OrderSubtotal, b.orders) == b.subtotal
    && SumOf(OrderShipping, b.orders) == b.shipping
  }

  ghost predicate TotalMatches(b: Book, i: nat)
    requires i < |b.orders|
  {
    b.orders[i].total == b.orders[i].subtotal + b.orders[i].shipping - PriorDiscount(b, i)
  }

  lemma AuditIsCoreAndTotals(b: Book)
    requires SumOf(ChildTotal, b.orders) == b.total && CoreBook(b)
    ensures AuditAll(b) <==> AllTotalsMatch(b)
  {
    forall i | 0 <= i < |b.orders| ensures Audit(b, i) <==> TotalMatches(b, i) {
      var o, rows := b.orders[i], RowsOf(b.discounts, i);
      assert Core(o, rows);
      if TotalMatches(b, i) {
        assert o == o.(total := o.subtotal + o.shipping - SumOf(AmountOf, rows));
      }
    }
  }

  lemma AuditGivesCore(b: Book)
    requires AuditAll(b) && b.orders != []
    ensures CoreBook(b) && SumOf(ChildTotal, b.orders) == b.total && AllTotalsMatch(b)
  {
    assert Audit(b, 0);
    forall i | 0 <= i < |b.orders|
      ensures Core(b.orders[i], RowsOf(b.discounts, i)) && TotalMatches(b, i) && b.orders[i].currency == b.currency
    {
      assert Audit(b, i);
      var o, rows := b.orders[i], RowsOf(b.discounts, i);
      assert o == o.(total := o.subtotal + o.shipping - SumOf(AmountOf, rows));
    }
  }

  predicate RowExists(b: Book, req: Request, item: Item) {
    item.order >= 0 && FindRow(b.discounts, item.order, req.promotion, req.coupon).Some?
  }

  /** The books agree on everything but one seller order, its rows and the customer total. */
  ghost predicate SameElsewhere(b: Book, b': Book, i: int) {
    && |b'.orders| == |b.orders|
    && b'.(orders := b.orders, discounts := b.discounts) == b
    && forall j :: 0 <= j < |b.orders| && j != i ==>
       b'.orders[j] == b.orders[j] && RowsOf(b'.discounts, j) == RowsOf(b.discounts, j)
  }

  lemma AddRow(b: Book, i: nat, o': SellerOrder, row: DiscountRow)
    requires CoreBook(b) && i < |b.orders| && row.order == i
    requires Core(o', RowsOf(b.discounts, i) + [row])
    requires o'.subtotal == b.orders[i].subtotal && o'.shipping == b.orders[i].shipping && o'.currency == b.currency
    ensures var b' := b.(orders := b.orders[i := o'], discounts := b.discounts + [row]);
            CoreBook(b') && SameElsewhere(b, b', i) && RowsOf(b'.discounts, i) == RowsOf(b.discounts, i) + [row]
  {
    var b' := b.(orders := b.orders[i := o'], discounts := b.discounts + [row]);
    forall k: nat
      ensures RowsOf(b'.discounts, k) == if k == i then RowsOf(b.discounts, k) + [row] else RowsOf(b.discounts, k)
    {
      RowsOfAppend(b.discounts, row, k);
    }
    forall k | 0 <= k < |b.orders|
      ensures Core(b'.orders[k], RowsOf(b'.discounts, k)) && b'.orders[k].currency == b'.currency
    {
      if k != i { assert Core(b.orders[k], RowsOf(b.discounts, k)); }
    }
    SumUpdate(OrderSubtotal, b.orders, i, o');
    SumUpdate(OrderShipping, b.orders, i, o');
  }

  /** A new row on an order that had earlier discounts or not. */
  ghost predicate RowAdded(b: Book, b': Book, i: nat, amount: int)
    requires i < |b.orders| && |b'.orders| == |b.orders|
  {
    && (TotalMatches(b', i) <==> PriorDiscount(b, i) == 0)
    && b'.orders[i].childTotal == b'.orders[i].total == b.orders[i].subtotal + b.orders[i].shipping - amount
  }

  lemma NewRowEffect(b: Book, req: Request, item: Item)
    requires StoredBook(b) && CoreBook(b) && ApplyItem(b, req, item).Ok? && !RowExists(b, req, item)
    ensures var b' := ApplyItem(b, req, item).value;
            0 <= item.order < |b.orders| && CoreBook(b') && SameElsewhere(b, b', item.order)
            && RowAdded(b, b', item.order, item.amount)
  {
    hide OrderConstraints;
    var b' := ApplyItem(b, req, item).value;
    var i: nat := item.order;
    var row := b'.discounts[|b.discounts|];
    assert Core(b.orders[i], RowsOf(b.discounts, i)) && b.orders[i].currency == b.currency;
    DiscountedOrder(b.orders[i], RowsOf(b.discounts, i), row);
    AddRow(b, i, b'.orders[i], row);
  }

  /** What one accepted allocation does to the book. */
  lemma ItemEffect(b: Book, req: Request, item: Item)
    requires StoredBook(b) && CoreBook(b) && ApplyItem(b, req, item).Ok?
    ensures var b' := ApplyItem(b, req, item).value;
            && 0 <= item.order < |b.orders|
            && CoreBook(b') && SameElsewhere(b, b', item.order)
            && if RowExists(b, req, item) then b' == b else RowAdded(b, b', item.order, item.amount)
  {
    if !RowExists(b, req, item) { NewRowEffect(b, req, item); }
  }

  /** Whether the n-th requested allocation adds a row to an order that already had a discount. */
  ghost predicate Stacks(b: Book, req: Request, k: nat)
    requires k < |req.items|
  {
    !RowExists(b, req, req.items[k]) && req.items[k].order >= 0 && PriorDiscount(b, req.items[k].order) != 0
  }

  /** Orders that no item among the first n names are as they were. */
  ghost predicate Untouched(b: Book, b': Book, items: seq<Item>, n: nat)
    requires n <= |items|
  {
    && |b'.orders| == |b.orders|
    && b'.(orders := b.orders, discounts := b.discounts) == b
    && forall j :: 0 <= j < |b.orders| && (forall k :: 0 <= k < n ==> items[k].order != j) ==>
         b'.orders[j] == b.orders[j] && RowsOf(b'.discounts, j) == RowsOf(b.discounts, j)
  }

  lemma UntouchedStep(b: Book, b0: Book, b': Book, items: seq<Item>, n: nat)
    requires n < |items| && Untouched(b, b0, items, n) && SameElsewhere(b0, b', items[n].order)
    ensures Untouched(b, b', items, n + 1)
  {
    forall j | 0 <= j < |b.orders| && forall k :: 0 <= k < n + 1 ==> items[k].order != j
      ensures b'.orders[j] == b.orders[j] && RowsOf(b'.discounts, j) == RowsOf(b.discounts, j)
    {
      assert items[n].order != j;
      assert forall k :: 0 <= k < n ==> items[k].order != j;
    }
  }

  lemma {:induction false} UntouchedOrders(b: Book, req: Request, n: nat)
    requires StoredBook(b) && CoreBook(b) && n <= |req.items| && ApplyItems(b, req, n).Ok?
    ensures CoreBook(ApplyItems(b, req, n).value) && Untouched(b, ApplyItems(b, req, n).value, req.items, n)
  {
    hide ApplyItem, CoreBook, SameElsewhere;
    if n > 0 {
      var b0 := ApplyItems(b, req, n - 1).value;
      UntouchedOrders(b, req, n - 1);
      ItemEffect(b0, req, req.items[n - 1]);
      UntouchedStep(b, b0, ApplyItems(b, req, n).value, req.items, n - 1);
    }
  }

  /** The n-th item meets its order, and that order's rows, as they were before the request. */
  lemma MeetsOriginal(b: Book, req: Request, n: nat)
    requires StoredBook(b) && CoreBook(b) && n < |req.items| && ApplyItems(b, req, n + 1).Ok?
    ensures var b0, i := ApplyItems(b, req, n).value, req.items[n].order;
            && 0 <= i < |b.orders| == |b0.orders| && b0.orders[i] == b.orders[i]
            && RowsOf(b0.discounts, i) == RowsOf(b.discounts, i)
            && (RowExists(b0, req, req.items[n]) <==> RowExists(b, req, req.items[n]))
            && (TotalMatches(b0, i) <==> TotalMatches(b, i))
  {
    hide ApplyItem, Core;
    var b0, item := ApplyItems(b, req, n).value, req.items[n];
    UntouchedOrders(b, req, n);
    AcceptedItem(b0, req, item);
    assert !SeenBefore(req.items, n);
    assert forall k :: 0 <= k < n ==> req.items[k].order != item.order;
    LookupIsLocal(b.discounts, item.order, req.promotion, req.coupon);
    LookupIsLocal(b0.discounts, item.order, req.promotion, req.coupon);
  }

  /** A row lookup only depends on the rows of that order. */
  lemma {:induction false} LookupIsLocal(rows: seq<DiscountRow>, i: nat, promotion: Option<int>, coupon: Option<int>)
    ensures FindRow(rows, i, promotion, coupon) == FindRow(RowsOf(rows, i), i, promotion, coupon)
  {
    if rows != [] {
      var n := |rows| - 1;
      LookupIsLocal(rows[..n], i, promotion, coupon);
      assert rows == rows[..n] + [rows[n]];
      FindRowAppend(rows[..n], rows[n], i, promotion, coupon);
      FindRowAppend(RowsOf(rows[..n], i), rows[n], i, promotion, coupon);
    }
  }

  ghost predicate AllTotalsMatch(b: Book) {
    forall i :: 0 <= i < |b.orders| ==> TotalMatches(b, i)
  }

  lemma TotalsStep(b0: Book, b': Book, i: nat)
    requires i < |b0.orders| && SameElsewhere(b0, b', i) && TotalMatches(b0, i)
    ensures AllTotalsMatch(b') <==> AllTotalsMatch(b0) && TotalMatches(b', i)
  {
    assert forall j :: 0 <= j < |b0.orders| && j != i ==> (TotalMatches(b', j) <==> TotalMatches(b0, j));
  }

  /** After n accepted allocations the order totals match their rows unless one of them stacked. */
  lemma {:induction false} TotalsAfter(b: Book, req: Request, n: nat)
    requires StoredBook(b) && CoreBook(b) && n <= |req.items| && ApplyItems(b, req, n).Ok?
    requires AllTotalsMatch(b)
    ensures AllTotalsMatch(ApplyItems(b, req, n).value) <==> forall k :: 0 <= k < n ==> !Stacks(b, req, k)
  {
    hide ApplyItem, CoreBook, Untouched;
    if n > 0 {
      var b0, item := ApplyItems(b, req, n - 1).value, req.items[n - 1];
      TotalsAfter(b, req, n - 1);
      UntouchedOrders(b, req, n - 1);
      ItemEffect(b0, req, item);
      MeetsOriginal(b, req, n - 1);
      assert TotalMatches(b, item.order);
      TotalsStep(b0, ApplyItems(b, req, n).value, item.order);
      assert TotalMatches(ApplyItems(b, req, n).value, item.order) <==> !Stacks(b, req, n - 1);
    }
  }

  /** Main result. An accepted discount keeps every check of the audit if and only if no new row
      lands on a seller order that already carries a discount: the order total is rebuilt from the
      new amount alone. */
  lemma AuditKeptIff(b: Book, req: Request)
    requires StoredBook(b) && AuditAll(b) && b.orders != [] && Allocate(b, req).Ok?
    ensures AuditAll(Allocate(b, req).value) <==> forall k :: 0 <= k < |req.items| ==> !Stacks(b, req, k)
  {
    AuditGivesCore(b);
    var applied := ApplyItems(b, req, |req.items|).value;
    var b' := applied.(total := SumOf(ChildTotal, applied.orders));
    AllocateIsApply(b, req);
    UntouchedOrders(b, req, |req.items|);
    TotalsAfter(b, req, |req.items|);
    hide AuditAll, StoredBook, CoreBook, AllTotalsMatch, Stacks, Untouched, ApplyItems, Allocate, SumOf;
    NewTotalKeepsAudit(applied, b'.total);
    AuditIsCoreAndTotals(b');
  }

  lemma AllocateIsApply(b: Book, req: Request)
    requires StoredBook(b) && Allocate(b, req).Ok?
    ensures ApplyItems(b, req, |req.items|).Ok?
    ensures var applied := ApplyItems(b, req, |req.items|).value;
            Allocate(b, req).value == applied.(total := SumOf(ChildTotal, applied.orders))
  {
    hide ApplyItems;
  }

  /** The customer total is no part of what is audited order by order. */
  lemma NewTotalKeepsAudit(b: Book, total: int)
    ensures CoreBook(b) <==> CoreBook(b.(total := total))
    ensures AllTotalsMatch(b) <==> AllTotalsMatch(b.(total := total))
  {
    hide Core, SumOf, RowsOf;
    var b' := b.(total := total);
    forall i | 0 <= i < |b.orders| ensures TotalMatches(b, i) <==> TotalMatches(b', i) {
    }
  }

  /** The sum of the amounts that actually became new rows among the first n. */
  ghost function NewAmount(b: Book, req: Request, n: nat): int
    requires n <= |req.items|
  {
    if n == 0 then 0
    else NewAmount(b, req, n - 1) + if RowExists(b, req, req.items[n - 1]) then 0 else req.items[n - 1].amount
  }

  lemma {:induction false} ChildTotalsDrop(b: Book, req: Request, n: nat)
    requires StoredBook(b) && CoreBook(b) && n <= |req.items| && ApplyItems(b, req, n).Ok?
    requires AllTotalsMatch(b) && forall i :: 0 <= i < |b.orders| ==> b.orders[i].childTotal == b.orders[i].total
    requires forall k :: 0 <= k < n ==> !Stacks(b, req, k)
    ensures SumOf(ChildTotal, ApplyItems(b, req, n).value.orders) == SumOf(ChildTotal, b.orders) - NewAmount(b, req, n)
  {
    hide ApplyItem, CoreBook, Untouched;
    if n > 0 {
      var b0, item := ApplyItems(b, req, n - 1).value, req.items[n - 1];
      ChildTotalsDrop(b, req, n - 1);
      UntouchedOrders(b, req, n - 1);
      ItemEffect(b0, req, item);
      MeetsOriginal(b, req, n - 1);
      if !RowExists(b, req, item) {
        assert !Stacks(b, req, n - 1);
        assert TotalMatches(b, item.order);
        OneOrderChanged(b0, ApplyItems(b, req, n).value, item.order);
      }
    }
  }

  lemma OneOrderChanged(b0: Book, b': Book, i: nat)
    requires i < |b0.orders| && SameElsewhere(b0, b', i)
    ensures SumOf(ChildTotal, b'.orders)
            == SumOf(ChildTotal, b0.orders) - b0.orders[i].childTotal + b'.orders[i].childTotal
  {
    SumUpdate(ChildTotal, b0.orders, i, b'.orders[i]);
    assert b'.orders == b0.orders[i := b'.orders[i]];
  }

  /** The customer pays exactly the full discount less. */
  lemma CustomerTotalDrops(b: Book, req: Request)
    requires StoredBook(b) && AuditAll(b) && b.orders != [] && Allocate(b, req).Ok?
    requires forall i :: 0 <= i < |b.orders| ==> b.orders[i].childTotal == b.orders[i].total
    requires forall k :: 0 <= k < |req.items| ==> !Stacks(b, req, k)
    ensures Allocate(b, req).value.total == b.total - NewAmount(b, req, |req.items|)
  {
    AuditGivesCore(b);
    ChildTotalsDrop(b, req, |req.items|);
  }

  // ---------------------------------------------------------------- resubmission

  lemma {:induction false} FindRowAppend(rows: seq<DiscountRow>, d: DiscountRow, order: nat, promotion: Option<int>,
                                         coupon: Option<int>)
    ensures FindRow(rows + [d], order, promotion, coupon) ==
            if FindRow(rows, order, promotion, coupon).Some? then FindRow(rows, order, promotion, coupon)
            else if d.order == order && d.promotion == promotion && d.coupon == coupon then Some(d) else None
  {
    if rows == [] {
      assert rows + [d] == [d];
      assert FindRow([d][1..], order, promotion, coupon) == None;
    } else {
      assert (rows + [d])[1..] == rows[1..] + [d];
      FindRowAppend(rows[1..], d, order, promotion, coupon);
    }
  }

  /** The item has a row with the requested amounts. */
  ghost predicate Recorded(b: Book, req: Request, item: Item) {
    && item.amount >= 0 && FundedParts(req.funding, item).Ok? && 0 <= item.order < |b.orders|
    && item.amount <= b.orders[item.order].subtotal
    && var found := FindRow(b.discounts, item.order, req.promotion, req.coupon);
       && found.Some? && found.value.amount == item.amount
       && (found.value.sellerAmount, found.value.platformAmount) == FundedParts(req.funding, item).value
  }

  ghost predicate OnRecord(b: Book, req: Request, n: nat)
    requires n <= |req.items|
  {
    forall k :: 0 <= k < n ==> Recorded(b, req, req.items[k])
  }

  /** One accepted item is on record afterwards, and what was on record stays. */
  lemma ItemIsRecorded(b: Book, req: Request, item: Item)
    requires StoredBook(b) && ApplyItem(b, req, item).Ok?
    ensures var b' := ApplyItem(b, req, item).value;
            && 0 <= item.order < |b.orders| && Recorded(b', req, item)
            && forall other :: Recorded(b, req, other) ==> Recorded(b', req, other)
  {
    var b' := ApplyItem(b, req, item).value;
    if b' != b {
      var row := b'.discounts[|b.discounts|];
      FindRowAppend(b.discounts, row, item.order, req.promotion, req.coupon);
      forall other | Recorded(b, req, other) ensures Recorded(b', req, other) {
        FindRowAppend(b.discounts, row, other.order, req.promotion, req.coupon);
      }
    }
  }

  lemma {:induction false} BecomesRecorded(b: Book, req: Request, n: nat)
    requires StoredBook(b) && n <= |req.items| && ApplyItems(b, req, n).Ok?
    ensures OnRecord(ApplyItems(b, req, n).value, req, n)
  {
    hide ApplyItem, Recorded;
    if n > 0 {
      BecomesRecorded(b, req, n - 1);
      ItemIsRecorded(ApplyItems(b, req, n - 1).value, req, req.items[n - 1]);
    }
  }

  lemma RecordedItemIsNoop(b: Book, req: Request, item: Item)
    requires StoredBook(b) && Recorded(b, req, item)
    ensures ApplyItem(b, req, item) == Ok(b) && FundedParts(req.funding, item).Ok?
  {
  }

  lemma {:induction false} RecordedIsNoop(b: Book, req: Request, n: nat)
    requires StoredBook(b) && n <= |req.items| && OnRecord(b, req, n)
    requires forall k :: 0 <= k < n ==> !SeenBefore(req.items, k)
    ensures ApplyItems(b, req, n) == Ok(b)
  {
    hide ApplyItem, Recorded;
    if n > 0 {
      RecordedIsNoop(b, req, n - 1);
      RecordedItemIsNoop(b, req, req.items[n - 1]);
    }
  }

  lemma {:induction false} NothingSeenTwice(b: Book, req: Request, n: nat)
    requires StoredBook(b) && n <= |req.items| && ApplyItems(b, req, n).Ok?
    ensures forall k :: 0 <= k < n ==> !SeenBefore(req.items, k)
  {
    hide ApplyItem;
    if n > 0 {
      NothingSeenTwice(b, req, n - 1);
      AcceptedItem(ApplyItems(b, req, n - 1).value, req, req.items[n - 1]);
    }
  }

  /** Submitting the same allocations again changes nothing. */
  lemma ResubmissionIsNoop(b: Book, req: Request)
    requires StoredBook(b) && Allocate(b, req).Ok?
    ensures StoredBook(Allocate(b, req).value)
    ensures Allocate(Allocate(b, req).value, req) == Allocate(b, req)
  {
    var applied := ApplyItems(b, req, |req.items|).value;
    var b' := Allocate(b, req).value;
    BecomesRecorded(b, req, |req.items|);
    NothingSeenTwice(b, req, |req.items|);
    SameShape(b, req, |req.items|);
    assert OnRecord(b', req, |req.items|);
    RecordedIsNoop(b', req, |req.items|);
  }

  lemma {:induction false} SameShape(b: Book, req: Request, n: nat)
    requires StoredBook(b) && n <= |req.items| && ApplyItems(b, req, n).Ok?
    ensures var b' := ApplyItems(b, req, n).value;
            b'.(orders := b.orders, discounts := b.discounts) == b && |b'.orders| == |b.orders|
  {
    hide ApplyItem;
    if n > 0 {
      SameShape(b, req, n - 1);
      AcceptedItem(ApplyItems(b, req, n - 1).value, req, req.items[n - 1]);
    }
  }

  /** After any accepted discount both totals of every order still agree and add up to the customer total. */
  lemma TotalsStayPaired(b: Book, req: Request)
    requires StoredBook(b) && Allocate(b, req).Ok?
    requires forall i :: 0 <= i < |b.orders| ==> b.orders[i].childTotal == b.orders[i].total
    ensures var b' := Allocate(b, req).value;
            && |b'.orders| == |b.orders| && StoredBook(b')
            && b'.total == SumOf(ChildTotal, b'.orders)
            && b'.status == b.status && b'.currency == b.currency
            && (forall i :: 0 <= i < |b'.orders| ==> b'.orders[i].childTotal == b'.orders[i].total)
  {
    SameShape(b, req, |req.items|);
    PairedAfter(b, req, |req.items|);
  }

  lemma {:induction false} PairedAfter(b: Book, req: Request, n: nat)
    requires StoredBook(b) && n <= |req.items| && ApplyItems(b, req, n).Ok?
    requires forall i :: 0 <= i < |b.orders| ==> b.orders[i].childTotal == b.orders[i].total
    ensures var b' := ApplyItems(b, req, n).value;
            forall i :: 0 <= i < |b'.orders| ==> b'.orders[i].childTotal == b'.orders[i].total
  {
    hide ApplyItem;
    if n > 0 {
      PairedAfter(b, req, n - 1);
      AcceptedItem(ApplyItems(b, req, n - 1).value, req, req.items[n - 1]);
    }
  }

  // ---------------------------------------------------------------- the stacked discount, concretely

  function SimpleOrder(off: int, total: int): SellerOrder {
    SellerOrder(7, 1, "USD", 100, 0, 0, total, total, [100], [Allocation(100, 0, off, 0, 100 - off, "USD", 7, 1)],
                Payout(100, off, 0, 0, 100 - off, "USD"))
  }

  /** A single order of 100 without fees, after discounts of `off` in total, showing `total` to pay. */
  function SimpleBook(off: int, total: int, rows: seq<DiscountRow>): Book {
    Book("USD", 100, 0, total, PendingPayment, [SimpleOrder(off, total)], rows)
  }

  function PromotionRequest(promotion: int, amount: int): Request {
    Request([Item(0, amount, None)], Some(promotion), None, BySeller, None)
  }

  function PromotionRow(promotion: int, amount: int): DiscountRow {
    DiscountRow(0, 7, Some(promotion), None, BySeller, amount, amount, 0, "USD")
  }

  lemma SimpleOrderStored(off: nat, total: nat)
    requires off <= 100
    ensures StoredOrder(SimpleOrder(off, total))
  {
  }

  lemma SimpleDiscount(off: nat, total: nat, amount: nat)
    requires off + amount <= 100
    ensures StoredOrder(SimpleOrder(off, total))
    ensures DiscountOrder(SimpleOrder(off, total), amount, amount, 0) == SimpleOrder(off + amount, 100 - amount)
  {
    SimpleOrderStored(off, total);
    var o := SimpleOrder(off, total);
    assert Split.RoundedShares(Split.HalfEven, amount, [100][..0], 100) == [];
    assert Split.Shares(Split.HalfEven, amount, [100], 100) == [amount];
    assert Spread(o, amount) == SimpleOrder(off + amount, 100 - amount).allocations;
  }

  /** A first or second promotion on the simple book is accepted, with this outcome. */
  lemma PromotionOutcome(off: nat, total: nat, rows: seq<DiscountRow>, promotion: int, amount: nat)
    requires off + amount <= 100
    requires FindRow(rows, 0, Some(promotion), None).None?
    ensures var b := SimpleBook(off, total, rows);
            StoredBook(b) && Allocate(b, PromotionRequest(promotion, amount))
              == Ok(SimpleBook(off + amount, 100 - amount, rows + [PromotionRow(promotion, amount)]))
  {
    hide DiscountOrder, StoredOrder;
    var b, req := SimpleBook(off, total, rows), PromotionRequest(promotion, amount);
    SimpleDiscount(off, total, amount);
    SimpleOrderStored(off + amount, 100 - amount);
    SingleItem(b, req);
    assert OrderConstraints(SimpleOrder(off + amount, 100 - amount));
    assert ApplyItem(b, req, req.items[0]).value.orders == [SimpleOrder(off + amount, 100 - amount)];
    SumAppend(ChildTotal, [], SimpleOrder(off + amount, 100 - amount));
    assert [] + [SimpleOrder(off + amount, 100 - amount)] == [SimpleOrder(off + amount, 100 - amount)];
  }

  lemma SimpleAudit()
    ensures AuditAll(SimpleBook(0, 100, []))
  {
    var b := SimpleBook(0, 100, []);
    Singletons(b.orders[0].allocations[0], b.orders[0]);
    assert RowsOf([], 0) == [];
  }

  /** Ten off by one promotion, then five off by another: both are accepted, the order then shows
      95 to pay while its rows say 85 is due, and the audit fails. */
  lemma SecondPromotionBreaksTheAudit()
    ensures var b := SimpleBook(0, 100, []);
            var once := SimpleBook(10, 90, [PromotionRow(1, 10)]);
            var twice := SimpleBook(15, 95, [PromotionRow(1, 10), PromotionRow(2, 5)]);
            && StoredBook(b) && StoredBook(once)
            && Allocate(b, PromotionRequest(1, 10)) == Ok(once) && Allocate(once, PromotionRequest(2, 5)) == Ok(twice)
            && AuditAll(b) && AuditAll(once) && !AuditAll(twice)
  {
    hide Allocate, AuditAll, SimpleBook;
    var b, row := SimpleBook(0, 100, []), PromotionRow(1, 10);
    SimpleAudit();
    SimpleBookShape();
    PromotionOutcome(0, 100, [], 1, 10);
    assert [] + [row] == [row] && [row] + [PromotionRow(2, 5)] == [row, PromotionRow(2, 5)];
    PromotionOutcome(10, 90, [row], 2, 5);
    StackedOrNot(row);
    AuditKeptIff(b, PromotionRequest(1, 10));
    AuditKeptIff(SimpleBook(10, 90, [row]), PromotionRequest(2, 5));
    assert Stacks(SimpleBook(10, 90, [row]), PromotionRequest(2, 5), 0);
  }

  lemma StackedOrNot(row: DiscountRow)
    requires row == PromotionRow(1, 10)
    ensures !Stacks(SimpleBook(0, 100, []), PromotionRequest(1, 10), 0)
    ensures Stacks(SimpleBook(10, 90, [row]), PromotionRequest(2, 5), 0)
  {
    assert RowsOf([row][..0], 0) == [];
    assert RowsOf([row], 0) == [] + [row] == [row];
    SumAppend(AmountOf, [], row);
  }

  lemma SimpleBookShape()
    ensures forall off: int, total: int, rows: seq<DiscountRow> ::
      SimpleBook(off, total, rows).orders != [] && SimpleBook(off, total, rows).total == total
  {
  }

  lemma Singletons(a: Allocation, o: SellerOrder)
    requires o.lines == [100] && o.allocations == [a]
    ensures SumOf(GrossOf, [a]) == a.gross && SumOf(ShippingOf, [a]) == a.shipping
    ensures SumOf(DiscountOf, [a]) == a.discount
    ensures SumOf(FeeOf, [a]) == a.fee && SumOf(NetOf, [a]) == a.net && SumOf(Identity, [100]) == 100
    ensures SumOf(OrderSubtotal, [o]) == o.subtotal && SumOf(OrderShipping, [o]) == o.shipping
    ensures SumOf(ChildTotal, [o]) == o.childTotal
  {
  }

  lemma SingleItem(b: Book, req: Request)
    requires StoredBook(b) && |req.items| == 1
    ensures ApplyItems(b, req, 1) == ApplyItem(b, req, req.items[0])
    ensures SumOf(ItemAmount, req.items) == req.items[0].amount
  {
    assert ApplyItems(b, req, 0) == Ok(b);
    assert !SeenBefore(req.items, 0);
  }
}
