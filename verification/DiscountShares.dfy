/** How an accepted discount is spread: every line gives up its proportion of the part its seller funds. */
module DiscountShares {
  import opened Discount
  import opened Money
  import opened Orders
  import opened Outcomes
  import opened Sums
  import Split

  // ---------------------------------------------------------------- one order

  /** The part of a requested allocation that the seller funds. */
  function SellerPart(req: Request, item: Item): int {
    match req.funding
    case BySeller => item.amount
    case ByPlatform => 0
    case Shared => if item.shared.Some? then item.shared.value.0 else 0
  }

  /** Line i of an order gives up `d` of `part`: its proportion by line total, a tie to the even unit, and on the
      last line what rounding left. */
  predicate Proportional(d: int, part: int, o: SellerOrder, i: nat)
    requires i < |o.lines|
  {
    var off, slack := 2 * (d * o.subtotal - part * o.lines[i]), Split.Slack(i, |o.lines|);
    if o.subtotal == 0 then d == 0
    else
      && -(slack * o.subtotal) <= off <= slack * o.subtotal
      && (i + 1 < |o.lines| && (off == o.subtotal || off == -o.subtotal) ==> d % 2 == 0)
  }

  lemma {:induction false} NothingHandedOut(parts: seq<int>, whole: nat)
    ensures Split.HandedOut(Split.HalfEven, 0, parts, whole) == 0
  {
    if parts != [] {
      var n := |parts| - 1;
      NothingHandedOut(parts[..n], whole);
      Split.HandOutNext(Split.HalfEven, 0, parts, whole, n);
      assert parts[..n + 1] == parts;
      assert 0 * parts[n] == 0;
    }
  }

  lemma SharesAreProportional(o: SellerOrder, part: int, i: nat)
    requires StoredOrder(o) && SumOf(Identity, o.lines) == o.subtotal && i < |o.lines|
    requires o.subtotal == 0 ==> part == 0
    ensures Proportional(Split.Shares(Split.HalfEven, part, o.lines, o.subtotal)[i], part, o, i)
  {
    var n := |o.lines|;
    SumSame(Identity, o.lines, Split.Identity, o.lines);
    if o.subtotal == 0 {
      Split.ShareAt(Split.HalfEven, part, o.lines, o.subtotal, i);
      NothingHandedOut(o.lines[..i], o.subtotal);
    } else if i + 1 < n {
      Split.ShareIsNearest(Split.HalfEven, part, o.lines, o.subtotal, i);
      Split.ShareAt(Split.HalfEven, part, o.lines, o.subtotal, i);
      HalfEvenTies(part * o.lines[i], o.subtotal);
    } else {
      Split.LastShareDrift(Split.HalfEven, part, o.lines, o.subtotal);
      Split.TimesIsProduct(n - 1, o.subtotal);
    }
    hide RoundHalfEven, Split.Shares;
  }

  /** What an accepted allocation does to its order: the customer pays `amount` less than the order came to, the
      seller's part comes out of the payout and, in proportion, out of the lines. */
  ghost predicate Discounted(o: SellerOrder, o': SellerOrder, amount: int, part: int) {
    && o'.total == o'.childTotal == o.subtotal + o.shipping - amount
    && o'.payout == o.payout.(sellerFunded := o.payout.sellerFunded + part,
                              platformFunded := o.payout.platformFunded + amount - part,
                              net := o.payout.net - part)
    && o'.(total := o.total, childTotal := o.childTotal, payout := o.payout, allocations := o.allocations) == o
    && |o'.allocations| == |o.allocations| == |o.lines|
    && forall i :: 0 <= i < |o.lines| ==>
         var a, a' := o.allocations[i], o'.allocations[i];
         var d := a'.discount - a.discount;
         a' == a.(discount := a.discount + d, net := a.net - d) && Proportional(d, part, o, i)
  }

  lemma OrderIsDiscounted(o: SellerOrder, amount: int, part: int)
    requires StoredOrder(o) && SumOf(Identity, o.lines) == o.subtotal && (o.subtotal == 0 ==> part == 0)
    requires o.payout.net == o.payout.gross - o.payout.sellerFunded - o.payout.fee
    ensures Discounted(o, DiscountOrder(o, amount, part, amount - part), amount, part)
  {
    var o' := DiscountOrder(o, amount, part, amount - part);
    hide Split.Shares, Proportional;
    forall i | 0 <= i < |o.lines|
      ensures var a, d := o.allocations[i], o'.allocations[i].discount - o.allocations[i].discount;
              o'.allocations[i] == a.(discount := a.discount + d, net := a.net - d) && Proportional(d, part, o, i)
    {
      assert AllocationConstraints(o.allocations[i]);
      SharesAreProportional(o, part, i);
    }
  }

  // ---------------------------------------------------------------- the whole request

  /** The row that an accepted allocation adds. */
  predicate RowFor(row: DiscountRow, b: Book, req: Request, item: Item) {
    && 0 <= item.order < |b.orders|
    && row == DiscountRow(item.order, b.orders[item.order].seller, req.promotion, req.coupon, req.funding, item.amount,
                          SellerPart(req, item), item.amount - SellerPart(req, item), b.currency)
  }

  /** An accepted new allocation, as it is made. */
  lemma NewItemDiscounts(b: Book, req: Request, item: Item)
    requires StoredBook(b) && CoreBook(b) && ApplyItem(b, req, item).Ok? && !RowExists(b, req, item)
    ensures var b' := ApplyItem(b, req, item).value;
            && 0 <= item.order < |b.orders| == |b'.orders|
            && Discounted(b.orders[item.order], b'.orders[item.order], item.amount, SellerPart(req, item))
            && |b'.discounts| == |b.discounts| + 1 && b.discounts == b'.discounts[..|b.discounts|]
            && RowFor(b'.discounts[|b.discounts|], b, req, item)
            && 0 <= SellerPart(req, item) <= item.amount <= b.orders[item.order].subtotal
  {
    hide CoreBook, StoredBook, StoredOrder, Discounted, DiscountOrder, OrderConstraints, SumOf;
    var o := b.orders[item.order];
    OrderIsStored(b, item.order);
    OrderIsDiscounted(o, item.amount, SellerPart(req, item));
  }

  lemma OrderIsStored(b: Book, i: nat)
    requires StoredBook(b) && CoreBook(b) && i < |b.orders|
    ensures StoredOrder(b.orders[i]) && SumOf(Identity, b.orders[i].lines) == b.orders[i].subtotal
    ensures b.orders[i].payout.net
            == b.orders[i].payout.gross - b.orders[i].payout.sellerFunded - b.orders[i].payout.fee
  {
    assert Core(b.orders[i], RowsOf(b.discounts, i));
  }

  lemma {:induction false} EarlierStepsPass(b: Book, req: Request, m: nat, n: nat)
    requires StoredBook(b) && m <= n <= |req.items| && ApplyItems(b, req, n).Ok?
    ensures ApplyItems(b, req, m).Ok?
    decreases n
  {
    hide ApplyItem;
    if m < n { EarlierStepsPass(b, req, m, n - 1); }
  }

  /** One accepted step of the loop. */
  lemma StepOfItem(b: Book, req: Request, k: nat)
    requires StoredBook(b) && k < |req.items| && ApplyItems(b, req, k + 1).Ok?
    ensures ApplyItems(b, req, k).Ok?
    ensures StoredBook(ApplyItems(b, req, k).value)
    ensures ApplyItem(ApplyItems(b, req, k).value, req, req.items[k]) == ApplyItems(b, req, k + 1)
  {
    hide ApplyItem;
  }

  /** No step touches an order that its item does not name. */
  lemma StepElsewhere(b: Book, req: Request, k: nat, i: nat)
    requires StoredBook(b) && CoreBook(b) && k < |req.items| && ApplyItems(b, req, k + 1).Ok?
    requires i < |b.orders| && req.items[k].order != i
    ensures ApplyItems(b, req, k).Ok?
    ensures var before, after := ApplyItems(b, req, k).value, ApplyItems(b, req, k + 1).value;
            && i < |before.orders| == |after.orders|
            && after.orders[i] == before.orders[i] && RowsOf(after.discounts, i) == RowsOf(before.discounts, i)
  {
    hide ApplyItem, ApplyItems, CoreBook, StoredBook, Untouched, SeenBefore, RowAdded, RowExists;
    StepOfItem(b, req, k);
    UntouchedOrders(b, req, k);
    SameLength(b, ApplyItems(b, req, k).value, req.items, k);
    ItemEffect(ApplyItems(b, req, k).value, req, req.items[k]);
  }

  lemma SameLength(b: Book, b': Book, items: seq<Item>, n: nat)
    requires n <= |items| && Untouched(b, b', items, n)
    ensures |b'.orders| == |b.orders|
  {
  }

  /** No later item touches the order of item k. */
  lemma {:induction false} LaterItemsElsewhere(b: Book, req: Request, k: nat, n: nat)
    requires StoredBook(b) && CoreBook(b) && k < n <= |req.items| && ApplyItems(b, req, n).Ok?
    requires 0 <= req.items[k].order < |b.orders|
    ensures ApplyItems(b, req, k + 1).Ok?
    ensures var i, before, after := req.items[k].order, ApplyItems(b, req, k + 1).value, ApplyItems(b, req, n).value;
            && i < |before.orders| == |after.orders| == |b.orders|
            && after.orders[i] == before.orders[i] && RowsOf(after.discounts, i) == RowsOf(before.discounts, i)
    decreases n
  {
    hide ApplyItem, ApplyItems, CoreBook, StoredBook, Untouched, RowsOf;
    UntouchedOrders(b, req, n);
    SameLength(b, ApplyItems(b, req, n).value, req.items, n);
    if k + 1 < n {
      StepOfItem(b, req, n - 1);
      LaterItemsElsewhere(b, req, k, n - 1);
      NothingSeenTwice(b, req, n);
      assert !SeenBefore(req.items, n - 1);
      StepElsewhere(b, req, n - 1, req.items[k].order);
    }
  }

  /** What item k does to its order, as it is made. */
  lemma ItemIsSpread(b: Book, req: Request, k: nat)
    requires StoredBook(b) && CoreBook(b) && k < |req.items| && ApplyItems(b, req, k + 1).Ok?
    ensures var b', item, i := ApplyItems(b, req, k + 1).value, req.items[k], req.items[k].order;
            && 0 <= i < |b.orders| == |b'.orders|
            && if RowExists(b, req, item) then
                 b'.orders[i] == b.orders[i] && RowsOf(b'.discounts, i) == RowsOf(b.discounts, i)
               else
                 && Discounted(b.orders[i], b'.orders[i], item.amount, SellerPart(req, item))
                 && exists row :: RowFor(row, b, req, item) && RowsOf(b'.discounts, i) == RowsOf(b.discounts, i) + [row]
  {
    hide ApplyItem, ApplyItems, CoreBook, StoredBook, Discounted, RowExists, SellerPart, RowsOf, SameElsewhere,
         RowAdded;
    StepOfItem(b, req, k);
    MeetsOriginal(b, req, k);
    UntouchedOrders(b, req, k);
    var b0, b', item, i := ApplyItems(b, req, k).value, ApplyItems(b, req, k + 1).value, req.items[k],
        req.items[k].order;
    if RowExists(b0, req, item) {
      ItemEffect(b0, req, item);
    } else {
      NewItemDiscounts(b0, req, item);
      var row := b'.discounts[|b0.discounts|];
      assert b'.discounts == b0.discounts + [row] && RowFor(row, b, req, item) && row.order == i;
      RowsOfAppend(b0.discounts, row, i);
    }
  }

  /** Main result: each item of an accepted request either repeats a row that is there, and leaves its order as it
      was, or adds one row and discounts its order by it. */
  lemma AllocationIsSpread(b: Book, req: Request, k: nat)
    requires StoredBook(b) && CoreBook(b) && k < |req.items| && Allocate(b, req).Ok?
    ensures var b', item, i := Allocate(b, req).value, req.items[k], req.items[k].order;
            && 0 <= i < |b.orders| == |b'.orders|
            && if RowExists(b, req, item) then
                 b'.orders[i] == b.orders[i] && RowsOf(b'.discounts, i) == RowsOf(b.discounts, i)
               else
                 && Discounted(b.orders[i], b'.orders[i], item.amount, SellerPart(req, item))
                 && exists row :: RowFor(row, b, req, item) && RowsOf(b'.discounts, i) == RowsOf(b.discounts, i) + [row]
  {
    hide Allocate, ApplyItems, CoreBook, StoredBook, Discounted, RowExists, SellerPart, RowsOf;
    AllocateIsApply(b, req);
    EarlierStepsPass(b, req, k + 1, |req.items|);
    ItemIsSpread(b, req, k);
    LaterItemsElsewhere(b, req, k, |req.items|);
  }

  /** An order that no item names is left alone, and so is everything but the orders, the rows and the total. */
  lemma OtherOrdersKept(b: Book, req: Request, i: nat)
    requires StoredBook(b) && CoreBook(b) && i < |b.orders| && Allocate(b, req).Ok?
    requires forall k :: 0 <= k < |req.items| ==> req.items[k].order != i
    ensures var b' := Allocate(b, req).value;
            && |b'.orders| == |b.orders| && b'.orders[i] == b.orders[i]
            && RowsOf(b'.discounts, i) == RowsOf(b.discounts, i)
            && b'.(orders := b.orders, discounts := b.discounts, total := b.total) == b
  {
    AllocateIsApply(b, req);
    UntouchedOrders(b, req, |req.items|);
    hide Allocate, ApplyItems, CoreBook;
  }

  // ---------------------------------------------------------------- which requests are accepted

  /** The amounts of an item are in order: it is not negative, and both parts of a shared one add up. */
  predicate PartsAgree(req: Request, item: Item) {
    && item.amount >= 0
    && (req.funding == Shared ==> item.shared.Some? && item.shared.value.0 >= 0 && item.shared.value.1 >= 0
                                  && item.shared.value.0 + item.shared.value.1 == item.amount)
  }

  /** The book has room for the item: its order is there and worth the amount; a row that is there says the same,
      and a new one leaves the order within the row constraints. */
  predicate HasRoomFor(b: Book, req: Request, item: Item)
    requires StoredBook(b)
  {
    && 0 <= item.order < |b.orders| && item.amount <= b.orders[item.order].subtotal
    && var row, part := FindRow(b.discounts, item.order, req.promotion, req.coupon), SellerPart(req, item);
       if row.Some? then (row.value.amount, row.value.sellerAmount, row.value.platformAmount)
                         == (item.amount, part, item.amount - part)
       else OrderConstraints(DiscountOrder(b.orders[item.order], item.amount, part, item.amount - part))
  }

  lemma ItemAcceptedIff(b: Book, req: Request, item: Item)
    requires StoredBook(b)
    ensures ApplyItem(b, req, item).Ok? <==> PartsAgree(req, item) && HasRoomFor(b, req, item)
    ensures item.amount >= 0 && FundedParts(req.funding, item).Ok? <==> PartsAgree(req, item)
  {
    hide StoredBook, OrderConstraints, DiscountOrder;
  }

  predicate OnePerOrder(items: seq<Item>, n: nat)
    requires n <= |items|
  {
    forall j, k :: 0 <= j < k < n ==> items[j].order != items[k].order
  }

  /** A first item for its order finds it, and its rows, as they were before the request. */
  lemma FirstMeetsOriginal(b: Book, req: Request, n: nat)
    requires StoredBook(b) && CoreBook(b) && n < |req.items| && ApplyItems(b, req, n).Ok? && !SeenBefore(req.items, n)
    ensures var b0 := ApplyItems(b, req, n).value;
            HasRoomFor(b0, req, req.items[n]) <==> HasRoomFor(b, req, req.items[n])
  {
    var b0, i := ApplyItems(b, req, n).value, req.items[n].order;
    UntouchedOrders(b, req, n);
    SameLength(b, b0, req.items, n);
    if 0 <= i < |b.orders| {
      assert forall k :: 0 <= k < n ==> req.items[k].order != i;
      LookupIsLocal(b.discounts, i, req.promotion, req.coupon);
      LookupIsLocal(b0.discounts, i, req.promotion, req.coupon);
    }
    hide CoreBook, StoredBook, ApplyItems, FindRow, OrderConstraints, DiscountOrder;
  }

  lemma {:induction false} ItemsAcceptedIff(b: Book, req: Request, n: nat)
    requires StoredBook(b) && CoreBook(b) && n <= |req.items|
    ensures ApplyItems(b, req, n).Ok? <==>
              OnePerOrder(req.items, n)
              && forall k :: 0 <= k < n ==> PartsAgree(req, req.items[k]) && HasRoomFor(b, req, req.items[k])
  {
    hide ApplyItem, CoreBook, StoredBook, PartsAgree, HasRoomFor, FundedParts;
    if n > 0 {
      ItemsAcceptedIff(b, req, n - 1);
      if ApplyItems(b, req, n - 1).Ok? {
        ItemAcceptedIff(ApplyItems(b, req, n - 1).value, req, req.items[n - 1]);
        if !SeenBefore(req.items, n - 1) { FirstMeetsOriginal(b, req, n - 1); }
      }
    }
  }

  /** Main result: a discount request is accepted if and only if the order still waits for payment, the currency is
      its own, no order is named twice, every item adds up and has room, and their sum is within the subtotal. */
  lemma AllocateIff(b: Book, req: Request)
    requires StoredBook(b) && CoreBook(b)
    ensures Allocate(b, req).Ok? <==>
              && b.status == PendingPayment && (req.currency.Some? ==> req.currency.value == b.currency)
              && OnePerOrder(req.items, |req.items|)
              && (forall item :: item in req.items ==> PartsAgree(req, item) && HasRoomFor(b, req, item))
              && SumOf(ItemAmount, req.items) <= b.subtotal
  {
    hide ApplyItems, CoreBook, StoredBook, PartsAgree, HasRoomFor;
    ItemsAcceptedIff(b, req, |req.items|);
  }
}
