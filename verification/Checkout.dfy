/** Checkout: from a cart to one customer order with one seller order per seller.

    Line totals are unrounded products, so they are kept in fine units (0.00000001) until a row is
    stored. The commission rule of a seller and the market are inputs. */
module Checkout {
  import opened Money
  import opened Orders
  import opened Outcomes
  import opened Sums
  import Split

  datatype CartRow = CartRow(seller: int, currency: string, quantity: nat, price: nat)

  datatype Quote = Quote(seller: int, currency: string, fee: nat)

  datatype FeeRule = FeeRule(bps: nat, fixedFee: nat)

  datatype Group = Group(seller: int, currency: string, rows: seq<CartRow>)

  datatype Error =
    | EmptyCart
    | QuoteCurrencyMismatch
    | TwoQuotesForSeller
    | QuoteSellersMismatch
    | MixedCurrencies
    | NoFeeRule
    | ConstraintViolation
    | AuditFailed

  function LineFine(r: CartRow): int { r.quantity * r.price }

  function GroupFine(g: Group): int { SumOf(LineFine, g.rows) }

  function QuoteFee(q: Quote): int { q.fee }

  function Fines(rows: seq<CartRow>): (r: seq<int>)
    ensures |r| == |rows|
  {
    seq(|rows|, i requires 0 <= i < |rows| => LineFine(rows[i]))
  }

  // ---------------------------------------------------------------- grouping by seller and currency

  function FindGroup(groups: seq<Group>, seller: int, currency: string): (i: nat)
    ensures i <= |groups|
    ensures i < |groups| ==> groups[i].seller == seller && groups[i].currency == currency
    ensures forall j :: 0 <= j < i ==> !(groups[j].seller == seller && groups[j].currency == currency)
  {
    if groups == [] then 0
    else if groups[0].seller == seller && groups[0].currency == currency then 0
    else 1 + FindGroup(groups[1..], seller, currency)
  }

  function AddToGroups(groups: seq<Group>, r: CartRow): (r': seq<Group>)
    requires forall g :: g in groups ==> g.rows != []
    ensures r' != [] && forall g :: g in r' ==> g.rows != []
  {
    var i := FindGroup(groups, r.seller, r.currency);
    if i < |groups| then groups[i := groups[i].(rows := groups[i].rows + [r])]
    else groups + [Group(r.seller, r.currency, [r])]
  }

  function GroupRows(rows: seq<CartRow>): (r: seq<Group>)
    ensures (r == [] <==> rows == []) && forall g :: g in r ==> g.rows != []
  {
    if rows == [] then [] else AddToGroups(GroupRows(rows[..|rows| - 1]), rows[|rows| - 1])
  }

  ghost predicate DistinctKeys(groups: seq<Group>) {
    forall i, j :: 0 <= i < j < |groups| ==>
        groups[i].seller != groups[j].seller || groups[i].currency != groups[j].currency
  }

  lemma AddKeepsRows(groups: seq<Group>, r: CartRow)
    requires DistinctKeys(groups) && forall g :: g in groups ==> g.rows != []
    ensures SumOf(GroupFine, AddToGroups(groups, r)) == SumOf(GroupFine, groups) + LineFine(r)
    ensures DistinctKeys(AddToGroups(groups, r))
  {
    hide LineFine;
    var i := FindGroup(groups, r.seller, r.currency);
    if i < |groups| {
      SumAppend(LineFine, groups[i].rows, r);
      SumUpdate(GroupFine, groups, i, groups[i].(rows := groups[i].rows + [r]));
    } else {
      SumAppend(LineFine, [], r);
      assert [] + [r] == [r];
      SumAppend(GroupFine, groups, Group(r.seller, r.currency, [r]));
    }
  }

  /** Grouping loses no row value and never repeats a key. */
  lemma {:induction false} GroupingKeepsRows(rows: seq<CartRow>)
    ensures SumOf(GroupFine, GroupRows(rows)) == SumOf(LineFine, rows)
    ensures DistinctKeys(GroupRows(rows))
  {
    hide LineFine, AddToGroups, GroupFine;
    if rows != [] {
      GroupingKeepsRows(rows[..|rows| - 1]);
      AddKeepsRows(GroupRows(rows[..|rows| - 1]), rows[|rows| - 1]);
    }
  }

  // ---------------------------------------------------------------- one seller order

  /** Commission on the rounded subtotal, in basis points, plus the fixed fee. */
  function FeeFor(rule: FeeRule, subtotalFine: int): int {
    RoundHalfUp(ToUnits(subtotalFine) * rule.bps + rule.fixedFee * 10000, 10000)
  }

  function AllocateLine(fine: int, shipping: int, fee: int, currency: string, seller: int, market: int): Allocation {
    Allocation(ToUnits(fine), shipping, 0, fee, ToUnits(fine + (shipping - fee) * SCALE), currency, seller, market)
  }

  function AllocateLines(fines: seq<int>, subtotalFine: nat, shipping: int, fee: int,
                         currency: string, seller: int, market: int): (r: seq<Allocation>)
    requires fines != []
    ensures |r| == |fines|
  {
    var ships := Split.Shares(Split.HalfUp, shipping, fines, subtotalFine);
    var fees := Split.Shares(Split.HalfUp, fee, fines, subtotalFine);
    seq(|fines|, i requires 0 <= i < |fines| => AllocateLine(fines[i], ships[i], fees[i], currency, seller, market))
  }

  function StoredLines(fines: seq<int>): (r: seq<int>)
    ensures |r| == |fines|
  {
    seq(|fines|, i requires 0 <= i < |fines| => ToUnits(fines[i]))
  }

  lemma {:induction false} GroupFineNonNegative(rows: seq<CartRow>)
    ensures SumOf(LineFine, rows) >= 0
    ensures SumOf(Identity, Fines(rows)) == SumOf(LineFine, rows)
  {
    forall i | 0 <= i < |rows| ensures LineFine(rows[i]) >= 0 {
      assert rows[i].quantity * rows[i].price >= 0;
    }
    SumNonNegative(LineFine, rows);
    SumSame(Identity, Fines(rows), LineFine, rows);
  }

  function SubtotalFine(g: Group): nat {
    GroupFineNonNegative(g.rows);
    GroupFine(g)
  }

  function OrderFor(g: Group, shipping: nat, rule: FeeRule, market: int): SellerOrder
    requires g.rows != []
  {
    var fine := SubtotalFine(g);
    var fee := FeeFor(rule, fine);
    var total := ToUnits(fine + shipping * SCALE);
    SellerOrder(
      g.seller, market, g.currency, ToUnits(fine), shipping, fee, total, total,
      StoredLines(Fines(g.rows)),
      AllocateLines(Fines(g.rows), fine, shipping, fee, g.currency, g.seller, market),
      Payout(total, 0, 0, fee, ToUnits(fine + (shipping - fee) * SCALE), g.currency))
  }

  // ---------------------------------------------------------------- the whole cart

  function ShippingFor(quotes: seq<Quote>, seller: int): nat {
    if quotes == [] then 0
    else if quotes[0].seller == seller then quotes[0].fee
    else ShippingFor(quotes[1..], seller)
  }

  function PlaceOrder(g: Group, quotes: seq<Quote>, rules: map<int, FeeRule>, market: int): Result<SellerOrder, Error>
    requires g.rows != []
  {
    if g.seller !in rules then Err(NoFeeRule)
    else
      var o := OrderFor(g, ShippingFor(quotes, g.seller), rules[g.seller], market);
      if OrderConstraints(o) then Ok(o) else Err(ConstraintViolation)
  }

  function BuildOrders(groups: seq<Group>, quotes: seq<Quote>, rules: map<int, FeeRule>,
                       market: int): (r: Result<seq<SellerOrder>, Error>)
    requires forall g :: g in groups ==> g.rows != []
    ensures r.Ok? ==> |r.value| == |groups|
  {
    if groups == [] then Ok([])
    else
      var before :- BuildOrders(groups[..|groups| - 1], quotes, rules, market);
      var o :- PlaceOrder(groups[|groups| - 1], quotes, rules, market);
      Ok(before + [o])
  }

  predicate DistinctSellers(quotes: seq<Quote>) {
    forall i, j :: 0 <= i < j < |quotes| ==> quotes[i].seller != quotes[j].seller
  }

  function SellersOf(groups: seq<Group>): set<int> { set g | g in groups :: g.seller }

  function QuoteSellers(quotes: seq<Quote>): set<int> { set q | q in quotes :: q.seller }

  /** The checks made on the quotes and the groups before anything is created. */
  function Screen(rows: seq<CartRow>, quotes: seq<Quote>, groups: seq<Group>): Option<Error>
    requires rows != []
  {
    if exists q :: q in quotes && q.currency != rows[0].currency then Some(QuoteCurrencyMismatch)
    else if !DistinctSellers(quotes) then Some(TwoQuotesForSeller)
    else if quotes != [] && QuoteSellers(quotes) != SellersOf(groups) then Some(QuoteSellersMismatch)
    else if exists g :: g in groups && g.currency != rows[0].currency then Some(MixedCurrencies)
    else None
  }

  function BookFor(currency: string, groups: seq<Group>, quotes: seq<Quote>, orders: seq<SellerOrder>): Book {
    var fine := SumOf(GroupFine, groups);
    var shipping := SumOf(QuoteFee, quotes);
    Book(currency, ToUnits(fine), shipping, ToUnits(fine + shipping * SCALE), PendingPayment, orders, [])
  }

  function CheckoutCart(rows: seq<CartRow>, quotes: seq<Quote>, rules: map<int, FeeRule>,
                        market: int): Result<Book, Error>
  {
    if rows == [] then Err(EmptyCart)
    else
      var groups := GroupRows(rows);
      var screen := Screen(rows, quotes, groups);
      if screen.Some? then Err(screen.value)
      else
        var orders :- BuildOrders(groups, quotes, rules, market);
        var book := BookFor(rows[0].currency, groups, quotes, orders);
        if AuditAll(book) then Ok(book) else Err(AuditFailed)
  }

  // ---------------------------------------------------------------- what checkout guarantees

  /** Rounding each line and rounding their sum give the same seller subtotal. */
  ghost predicate LinesAgree(g: Group) {
    SumOf(Identity, StoredLines(Fines(g.rows))) == ToUnits(GroupFine(g))
  }

  /** Rounding each seller subtotal and rounding their sum give the same customer subtotal. */
  ghost predicate SellersAgree(groups: seq<Group>) {
    SumOf(GroupUnits, groups) == ToUnits(SumOf(GroupFine, groups))
  }

  ghost predicate RoundingAgrees(groups: seq<Group>) {
    (forall g :: g in groups ==> LinesAgree(g)) && SellersAgree(groups)
  }

  function GroupUnits(g: Group): int { ToUnits(GroupFine(g)) }

  lemma AllocationSums(fines: seq<int>, subtotalFine: nat, shipping: int, fee: int, currency: string, seller: int,
                       market: int)
    requires fines != []
    ensures var a := AllocateLines(fines, subtotalFine, shipping, fee, currency, seller, market);
            && SumOf(GrossOf, a) == SumOf(Identity, StoredLines(fines))
            && SumOf(ShippingOf, a) == shipping
            && SumOf(FeeOf, a) == fee
            && SumOf(DiscountOf, a) == 0
  {
    var a := AllocateLines(fines, subtotalFine, shipping, fee, currency, seller, market);
    var ships := Split.Shares(Split.HalfUp, shipping, fines, subtotalFine);
    var fees := Split.Shares(Split.HalfUp, fee, fines, subtotalFine);
    SumSame(GrossOf, a, Identity, StoredLines(fines));
    SumSame(ShippingOf, a, Split.Identity, ships);
    SumSame(FeeOf, a, Split.Identity, fees);
    Split.SharesSumExactly(Split.HalfUp, shipping, fines, subtotalFine);
    Split.SharesSumExactly(Split.HalfUp, fee, fines, subtotalFine);
    SumZero(a);
  }

  lemma {:induction false} SumZero(a: seq<Allocation>)
    requires forall x :: x in a ==> x.discount == 0
    ensures SumOf(DiscountOf, a) == 0
  {
    if a != [] { SumZero(a[..|a| - 1]); }
  }

  /** The columns of allocation rows that meet the row constraint add up like the rows do. */
  lemma {:induction false} NetSums(a: seq<Allocation>)
    requires forall x :: x in a ==> AllocationConstraints(x)
    ensures SumOf(NetOf, a) == SumOf(GrossOf, a) + SumOf(ShippingOf, a) - SumOf(DiscountOf, a) - SumOf(FeeOf, a)
  {
    if a != [] {
      NetSums(a[..|a| - 1]);
      assert AllocationConstraints(a[|a| - 1]);
    }
  }

  /** A seller order that meets its constraints passes its own checks exactly when its lines'
      rounding agrees with its subtotal's. */
  lemma OrderPassesIff(g: Group, shipping: nat, rule: FeeRule, market: int)
    requires g.rows != []
    requires OrderConstraints(OrderFor(g, shipping, rule, market))
    ensures var o := OrderFor(g, shipping, rule, market);
            && (OrderChecks(o, []) <==> LinesAgree(g))
            && DiscountChecks(o, []) && PayoutChecks(o, [])
            && o.childTotal == o.total == o.subtotal + shipping
            && o.subtotal == ToUnits(GroupFine(g))
  {
    var o := OrderFor(g, shipping, rule, market);
    var fine := SubtotalFine(g);
    UnitsShift(fine, shipping);
    AllocationSums(Fines(g.rows), fine, shipping, o.fee, g.currency, g.seller, market);
    NetSums(o.allocations);
  }

  /** Each seller's shipping adds up to the customer's, when there is one quote per seller. */
  lemma {:induction false} ShippingAddsUp(groups: seq<Group>, quotes: seq<Quote>)
    requires forall i, j :: 0 <= i < j < |groups| ==> groups[i].seller != groups[j].seller
    requires DistinctSellers(quotes)
    requires quotes == [] || QuoteSellers(quotes) == SellersOf(groups)
    ensures SumOf((g: Group) => ShippingFor(quotes, g.seller), groups) == SumOf(QuoteFee, quotes)
  {
    var ship := (g: Group) => ShippingFor(quotes, g.seller);
    if quotes == [] {
      NoShipping(groups, ship);
    } else {
      var picked := seq(|groups|, i requires 0 <= i < |groups| => PickQuote(quotes, groups[i].seller));
      forall i | 0 <= i < |groups|
        ensures ship(groups[i]) == QuoteFee(picked[i]) && picked[i] in quotes && picked[i].seller == groups[i].seller
      {
        assert groups[i].seller in SellersOf(groups);
        PickIsQuote(quotes, groups[i].seller);
      }
      SumSame(ship, groups, QuoteFee, picked);
      SamePicks(picked, quotes, groups);
      SumPermutation(QuoteFee, picked, quotes);
    }
  }

  lemma {:induction false} NoShipping(groups: seq<Group>, ship: Group -> int)
    requires forall g :: g in groups ==> ship(g) == 0
    ensures SumOf(ship, groups) == 0
  {
    if groups != [] { NoShipping(groups[..|groups| - 1], ship); }
  }

  function PickQuote(quotes: seq<Quote>, seller: int): Quote {
    if quotes == [] then Quote(seller, "", 0)
    else if quotes[0].seller == seller then quotes[0]
    else PickQuote(quotes[1..], seller)
  }

  lemma {:induction false} PickIsQuote(quotes: seq<Quote>, seller: int)
    ensures PickQuote(quotes, seller).seller == seller && PickQuote(quotes, seller).fee == ShippingFor(quotes, seller)
    ensures seller in QuoteSellers(quotes) ==> PickQuote(quotes, seller) in quotes
  {
    if quotes != [] { PickIsQuote(quotes[1..], seller); }
  }

  /** Two duplicate-free sequences with the same members are permutations of each other. */
  lemma SamePicks(picked: seq<Quote>, quotes: seq<Quote>, groups: seq<Group>)
    requires |picked| == |groups| && DistinctSellers(quotes) && QuoteSellers(quotes) == SellersOf(groups)
    requires forall i, j :: 0 <= i < j < |groups| ==> groups[i].seller != groups[j].seller
    requires forall i :: 0 <= i < |picked| ==> picked[i] in quotes && picked[i].seller == groups[i].seller
    ensures multiset(picked) == multiset(quotes)
  {
    forall q | q in quotes ensures q in picked {
      assert q.seller in QuoteSellers(quotes);
      var g :| g in groups && g.seller == q.seller;
      var i :| 0 <= i < |groups| && groups[i] == g;
      assert picked[i].seller == q.seller;
      var j :| 0 <= j < |quotes| && quotes[j] == picked[i];
    }
    DistinctMultiset(picked);
    DistinctMultiset(quotes);
    forall q ensures multiset(picked)[q] == multiset(quotes)[q] {
      assert q in picked <==> q in quotes;
    }
  }

  lemma {:induction false} DistinctMultiset(s: seq<Quote>)
    requires forall i, j :: 0 <= i < j < |s| ==> s[i] != s[j]
    ensures forall x :: multiset(s)[x] == if x in s then 1 else 0
  {
    if s != [] {
      DistinctMultiset(s[..|s| - 1]);
      assert s == s[..|s| - 1] + [s[|s| - 1]];
    }
  }

  lemma {:induction false} OrderIsPlaced(groups: seq<Group>, quotes: seq<Quote>, rules: map<int, FeeRule>,
                                         market: int, i: nat)
    requires forall g :: g in groups ==> g.rows != []
    requires BuildOrders(groups, quotes, rules, market).Ok? && i < |groups|
    ensures PlaceOrder(groups[i], quotes, rules, market) == Ok(BuildOrders(groups, quotes, rules, market).value[i])
  {
    if i < |groups| - 1 { OrderIsPlaced(groups[..|groups| - 1], quotes, rules, market, i); }
  }

  /** What is known of the i-th seller order once all of them were built. */
  lemma BuiltOrder(groups: seq<Group>, quotes: seq<Quote>, rules: map<int, FeeRule>, market: int, i: nat)
    requires forall g :: g in groups ==> g.rows != []
    requires BuildOrders(groups, quotes, rules, market).Ok? && i < |groups|
    ensures var o := BuildOrders(groups, quotes, rules, market).value[i];
            && OrderConstraints(o)
            && (OrderChecks(o, []) <==> LinesAgree(groups[i]))
            && DiscountChecks(o, []) && PayoutChecks(o, [])
            && OrderSubtotal(o) == GroupUnits(groups[i])
            && OrderShipping(o) == ShippingFor(quotes, groups[i].seller)
            && ChildTotal(o) == o.total == GroupUnits(groups[i]) + ShippingFor(quotes, groups[i].seller)
            && o.currency == groups[i].currency && |o.allocations| == |o.lines| == |groups[i].rows|
  {
    OrderIsPlaced(groups, quotes, rules, market, i);
    OrderPassesIff(groups[i], ShippingFor(quotes, groups[i].seller), rules[groups[i].seller], market);
  }

  /** The columns of the built orders, summed over the sellers. */
  lemma BuiltSums(groups: seq<Group>, quotes: seq<Quote>, rules: map<int, FeeRule>, market: int)
    requires forall g :: g in groups ==> g.rows != []
    requires forall i, j :: 0 <= i < j < |groups| ==> groups[i].seller != groups[j].seller
    requires DistinctSellers(quotes)
    requires quotes == [] || QuoteSellers(quotes) == SellersOf(groups)
    requires BuildOrders(groups, quotes, rules, market).Ok?
    ensures var orders := BuildOrders(groups, quotes, rules, market).value;
            && SumOf(OrderSubtotal, orders) == SumOf(GroupUnits, groups)
            && SumOf(OrderShipping, orders) == SumOf(QuoteFee, quotes)
            && SumOf(ChildTotal, orders) == SumOf(GroupUnits, groups) + SumOf(QuoteFee, quotes)
  {
    var orders := BuildOrders(groups, quotes, rules, market).value;
    var ship := (g: Group) => ShippingFor(quotes, g.seller);
    forall i | 0 <= i < |groups|
      ensures OrderSubtotal(orders[i]) == GroupUnits(groups[i])
      ensures OrderShipping(orders[i]) == ship(groups[i])
      ensures ChildTotal(orders[i]) == GroupUnits(groups[i]) + ship(groups[i])
    {
      BuiltOrder(groups, quotes, rules, market, i);
    }
    SumSame(OrderSubtotal, orders, GroupUnits, groups);
    SumSame(OrderShipping, orders, ship, groups);
    ShippingAddsUp(groups, quotes);
    SumOfTotals(orders, groups, ship);
  }

  lemma {:induction false} CartFineNonNegative(groups: seq<Group>)
    ensures SumOf(GroupFine, groups) >= 0
  {
    if groups != [] {
      CartFineNonNegative(groups[..|groups| - 1]);
      GroupFineNonNegative(groups[|groups| - 1].rows);
    }
  }

  /** The customer's amounts agree with the sellers' exactly when their rounding does. */
  lemma CustomerPassesIff(groups: seq<Group>, quotes: seq<Quote>, currency: string, orders: seq<SellerOrder>)
    requires SumOf(OrderSubtotal, orders) == SumOf(GroupUnits, groups)
    requires SumOf(OrderShipping, orders) == SumOf(QuoteFee, quotes)
    requires SumOf(ChildTotal, orders) == SumOf(GroupUnits, groups) + SumOf(QuoteFee, quotes)
    ensures var b := BookFor(currency, groups, quotes, orders);
            forall i :: 0 <= i < |orders| && orders[i].currency == currency ==>
              (CustomerChecks(b, orders[i]) <==> SellersAgree(groups))
  {
    CartFineNonNegative(groups);
    SumNonNegative(QuoteFee, quotes);
    UnitsShift(SumOf(GroupFine, groups), SumOf(QuoteFee, quotes));
  }

  lemma {:induction false} SumOfTotals(orders: seq<SellerOrder>, groups: seq<Group>, ship: Group -> int)
    requires |orders| == |groups|
    requires forall i :: 0 <= i < |groups| ==> ChildTotal(orders[i]) == GroupUnits(groups[i]) + ship(groups[i])
    ensures SumOf(ChildTotal, orders) == SumOf(GroupUnits, groups) + SumOf(ship, groups)
  {
    if groups != [] { SumOfTotals(orders[..|orders| - 1], groups[..|groups| - 1], ship); }
  }

  lemma AuditAllIff(b: Book, groups: seq<Group>)
    requires |b.orders| == |groups| > 0 && b.discounts == []
    requires forall i :: 0 <= i < |groups| ==>
      && (OrderChecks(b.orders[i], []) <==> LinesAgree(groups[i]))
      && DiscountChecks(b.orders[i], []) && PayoutChecks(b.orders[i], [])
      && (CustomerChecks(b, b.orders[i]) <==> SellersAgree(groups))
    ensures AuditAll(b) <==> RoundingAgrees(groups)
  {
    forall i | 0 <= i < |groups| ensures Audit(b, i) <==> LinesAgree(groups[i]) && SellersAgree(groups) {
      assert RowsOf(b.discounts, i) == [];
    }
    if AuditAll(b) {
      assert Audit(b, 0);
      forall g | g in groups ensures LinesAgree(g) {
        var i :| 0 <= i < |groups| && groups[i] == g;
        assert Audit(b, i);
      }
    }
  }

  lemma BuiltBookAudit(currency: string, groups: seq<Group>, quotes: seq<Quote>, rules: map<int, FeeRule>, market: int)
    requires groups != [] && DistinctKeys(groups) && DistinctSellers(quotes)
    requires forall g :: g in groups ==> g.rows != [] && g.currency == currency
    requires quotes == [] || QuoteSellers(quotes) == SellersOf(groups)
    requires BuildOrders(groups, quotes, rules, market).Ok?
    ensures AuditAll(BookFor(currency, groups, quotes, BuildOrders(groups, quotes, rules, market).value)) <==>
              RoundingAgrees(groups)
  {
    var orders := BuildOrders(groups, quotes, rules, market).value;
    BuiltSums(groups, quotes, rules, market);
    CustomerPassesIff(groups, quotes, currency, orders);
    forall i | 0 <= i < |groups|
      ensures OrderChecks(orders[i], []) <==> LinesAgree(groups[i])
      ensures DiscountChecks(orders[i], []) && PayoutChecks(orders[i], []) && orders[i].currency == currency
    {
      BuiltOrder(groups, quotes, rules, market, i);
    }
    AuditAllIff(BookFor(currency, groups, quotes, orders), groups);
  }

  /** Main result. Once the quotes, the fee rules and the row constraints are in order, checkout
      succeeds if and only if rounding agrees; and then every order passes the whole audit. */
  lemma CheckoutSucceedsIff(rows: seq<CartRow>, quotes: seq<Quote>, rules: map<int, FeeRule>, market: int)
    requires rows != [] && Screen(rows, quotes, GroupRows(rows)).None?
    requires BuildOrders(GroupRows(rows), quotes, rules, market).Ok?
    ensures CheckoutCart(rows, quotes, rules, market).Ok? <==> RoundingAgrees(GroupRows(rows))
  {
    hide AuditAll, RoundingAgrees, BuildOrders, GroupRows, BookFor;
    GroupingKeepsRows(rows);
    BuiltBookAudit(rows[0].currency, GroupRows(rows), quotes, rules, market);
  }

  /** Whatever checkout creates passes the audit and the row constraints, starts without discounts,
      and charges exactly the cart's value plus the quoted shipping, rounded. */
  lemma CheckedOutBook(rows: seq<CartRow>, quotes: seq<Quote>, rules: map<int, FeeRule>, market: int)
    requires CheckoutCart(rows, quotes, rules, market).Ok?
    ensures var b := CheckoutCart(rows, quotes, rules, market).value;
            && AuditAll(b) && b.orders != [] && b.discounts == [] && b.status == PendingPayment
            && b.total == ToUnits(SumOf(LineFine, rows)) + SumOf(QuoteFee, quotes)
            && (forall i :: 0 <= i < |b.orders| ==>
                OrderConstraints(b.orders[i]) && b.orders[i].total == b.orders[i].childTotal)
            && (forall i :: 0 <= i < |b.orders| ==> |b.orders[i].allocations| == |b.orders[i].lines| > 0)
  {
    hide AuditAll, BuildOrders, GroupRows, OrderConstraints, RoundHalfUp, GroupFine, LineFine, Screen;
    var groups := GroupRows(rows);
    var orders := BuildOrders(groups, quotes, rules, market).value;
    GroupingKeepsRows(rows);
    CartFineNonNegative(groups);
    SumNonNegative(QuoteFee, quotes);
    UnitsShift(SumOf(GroupFine, groups), SumOf(QuoteFee, quotes));
    forall i | 0 <= i < |groups|
      ensures OrderConstraints(orders[i]) && orders[i].total == orders[i].childTotal
      ensures |orders[i].allocations| == |orders[i].lines| > 0
    {
      BuiltOrder(groups, quotes, rules, market, i);
      assert groups[i] in groups;
    }
  }

  // ---------------------------------------------------------------- when rounding agrees

  ghost predicate OnGrid(r: CartRow) { LineFine(r) % SCALE == 0 }

  /** A whole quantity times any price is on the grid. */
  lemma WholeQuantitiesAreOnGrid(r: CartRow)
    requires r.quantity % SCALE == 0
    ensures OnGrid(r)
  {
    var k := r.quantity / SCALE;
    assert r.quantity * r.price == SCALE * (k * r.price) by {
      assert r.quantity == SCALE * k;
    }
  }

  lemma {:induction false} GridSums(fines: seq<int>)
    requires forall i :: 0 <= i < |fines| ==> fines[i] % SCALE == 0
    ensures SumOf(Identity, fines) == SCALE * SumOf(Identity, StoredLines(fines))
  {
    if fines != [] {
      var n := |fines| - 1;
      GridSums(fines[..n]);
      assert StoredLines(fines)[..n] == StoredLines(fines[..n]);
      UnitsOnGrid(fines[n] / SCALE);
    }
  }

  lemma {:induction false} GridGroupSums(groups: seq<Group>)
    requires forall g :: g in groups ==> GroupFine(g) % SCALE == 0
    ensures SumOf(GroupFine, groups) == SCALE * SumOf(GroupUnits, groups)
  {
    if groups != [] {
      var g := groups[|groups| - 1];
      GridGroupSums(groups[..|groups| - 1]);
      UnitsOnGrid(GroupFine(g) / SCALE);
    }
  }

  lemma {:induction false} GroupsHoldCartRows(rows: seq<CartRow>)
    ensures forall g, r :: g in GroupRows(rows) && r in g.rows ==> r in rows
  {
    if rows != [] {
      GroupsHoldCartRows(rows[..|rows| - 1]);
      var groups := GroupRows(rows[..|rows| - 1]);
      var last := rows[|rows| - 1];
      assert rows == rows[..|rows| - 1] + [last];
    }
  }

  lemma GridGroup(g: Group)
    requires forall r :: r in g.rows ==> OnGrid(r)
    ensures LinesAgree(g) && GroupFine(g) % SCALE == 0
  {
    hide LineFine, RoundHalfUp;
    var fines := Fines(g.rows);
    forall i | 0 <= i < |fines| ensures fines[i] % SCALE == 0 {
      assert g.rows[i] in g.rows;
      assert OnGrid(g.rows[i]);
    }
    GridSums(fines);
    SumSame(Identity, fines, LineFine, g.rows);
    UnitsOnGrid(SumOf(Identity, StoredLines(fines)));
  }

  lemma GridSellers(groups: seq<Group>)
    requires forall g :: g in groups ==> GroupFine(g) % SCALE == 0
    ensures SellersAgree(groups)
  {
    GridGroupSums(groups);
    UnitsOnGrid(SumOf(GroupUnits, groups));
  }

  /** Line totals on the grid never make checkout's audit fail. */
  lemma GridCartsAgree(rows: seq<CartRow>)
    requires forall r :: r in rows ==> OnGrid(r)
    ensures RoundingAgrees(GroupRows(rows))
  {
    GroupsHoldCartRows(rows);
    forall g | g in GroupRows(rows) ensures LinesAgree(g) && GroupFine(g) % SCALE == 0 {
      GridGroup(g);
    }
    GridSellers(GroupRows(rows));
  }

  /** Two half-unit lines round up to two units, their sum to one: the audit rejects the order. */
  lemma FractionalQuantitiesCanDisagree()
    ensures var half := CartRow(7, "USD", 5000, 1);
            GroupRows([half, half]) == [Group(7, "USD", [half, half])] && !RoundingAgrees(GroupRows([half, half]))
  {
    var half := CartRow(7, "USD", 5000, 1);
    assert [half, half][..1] == [half] && [half][..0] == [];
    var single := Group(7, "USD", [half]);
    assert GroupRows([half]) == [single];
    var g := Group(7, "USD", [half, half]);
    assert [half] + [half] == [half, half];
    assert GroupRows([half, half]) == AddToGroups([single], half) == [single][0 := g] == [g];
    assert g in GroupRows([half, half]);
    var stored := StoredLines(Fines(g.rows));
    assert stored == [1, 1] && [1, 1][..1] == [1] && [1][..0] == [];
    assert SumOf(Identity, [1]) == 1;
    assert SumOf(Identity, stored) == 2;
    assert SumOf(LineFine, [half]) == 5000;
    assert GroupFine(g) == 10000;
  }

  /** How close each line's fee and shipping come to its exact proportion of the order: half a unit,
      and (n - 1) / 2 units for the last of n lines, which takes the remainder. */
  lemma AllocationsAreFair(g: Group, shipping: nat, rule: FeeRule, market: int, i: nat)
    requires i < |g.rows| && GroupFine(g) > 0
    ensures var o := OrderFor(g, shipping, rule, market);
            var a, fine, line := o.allocations[i], GroupFine(g), LineFine(g.rows[i]);
            var halves := if i + 1 < |g.rows| then 1 else |g.rows| - 1;
            && -(halves * fine) <= Split.Drift(a.fee, line, o.fee, fine) <= halves * fine
            && -(halves * fine) <= Split.Drift(a.shipping, line, shipping, fine) <= halves * fine
            && a.gross == o.lines[i] == ToUnits(line)
  {
    var fines, fine := Fines(g.rows), SubtotalFine(g);
    var fee := FeeFor(rule, fine);
    GroupFineNonNegative(g.rows);
    SumSame(Split.Identity, fines, LineFine, g.rows);
    if i + 1 < |g.rows| {
      Split.ShareIsNearest(Split.HalfUp, fee, fines, fine, i);
      Split.ShareIsNearest(Split.HalfUp, shipping, fines, fine, i);
    } else {
      Split.LastShareDrift(Split.HalfUp, fee, fines, fine);
      Split.LastShareDrift(Split.HalfUp, shipping, fines, fine);
      Split.TimesIsProduct(|g.rows| - 1, fine);
    }
  }

  // ---------------------------------------------------------------- the code

  /** The inner loop of checkout: allocate the order's fee and shipping line by line. */
  method SplitOverLines(fines: seq<int>, subtotalFine: nat, shipping: int, fee: int,
                        currency: string, seller: int, market: int) returns (allocations: seq<Allocation>)
    requires fines != []
    ensures allocations == AllocateLines(fines, subtotalFine, shipping, fee, currency, seller, market)
  {
    ghost var ships := Split.Shares(Split.HalfUp, shipping, fines, subtotalFine);
    ghost var fees := Split.Shares(Split.HalfUp, fee, fines, subtotalFine);
    hide AllocateLine, Split.Share, Split.Shares, Split.HandedOut;
    Split.NothingHandedOut(Split.HalfUp, fee, fines, subtotalFine);
    Split.NothingHandedOut(Split.HalfUp, shipping, fines, subtotalFine);
    var remainingFee, remainingShipping := fee, shipping;
    allocations := [];
    for idx := 0 to |fines|
      invariant |allocations| == idx
      invariant forall k :: 0 <= k < idx ==>
                  allocations[k] == AllocateLine(fines[k], ships[k], fees[k], currency, seller, market)
      invariant idx < |fines| ==> remainingFee == fee - Split.HandedOut(Split.HalfUp, fee, fines[..idx], subtotalFine)
      invariant idx < |fines| ==>
                  remainingShipping == shipping - Split.HandedOut(Split.HalfUp, shipping, fines[..idx], subtotalFine)
    {
      var lineFee, lineShipping := remainingFee, remainingShipping;
      Split.ShareAt(Split.HalfUp, fee, fines, subtotalFine, idx);
      Split.ShareAt(Split.HalfUp, shipping, fines, subtotalFine, idx);
      if idx != |fines| - 1 {
        lineFee := Split.Share(Split.HalfUp, fee, fines[idx], subtotalFine);
        lineShipping := Split.Share(Split.HalfUp, shipping, fines[idx], subtotalFine);
        remainingFee := remainingFee - lineFee;
        remainingShipping := remainingShipping - lineShipping;
        Split.HandOutNext(Split.HalfUp, fee, fines, subtotalFine, idx);
        Split.HandOutNext(Split.HalfUp, shipping, fines, subtotalFine, idx);
      }
      allocations := allocations + [AllocateLine(fines[idx], lineShipping, lineFee, currency, seller, market)];
    }
  }

  method GroupCart(rows: seq<CartRow>) returns (groups: seq<Group>)
    ensures groups == GroupRows(rows)
  {
    groups := [];
    for i := 0 to |rows|
      invariant groups == GroupRows(rows[..i])
    {
      assert rows[..i + 1][..i] == rows[..i];
      groups := AddToGroups(groups, rows[i]);
    }
    assert rows[..|rows|] == rows;
  }

  /** One pass of checkout's loop over the groups. */
  method CreateOrder(g: Group, quotes: seq<Quote>, rules: map<int, FeeRule>, market: int)
      returns (r: Result<SellerOrder, Error>)
    requires g.rows != []
    ensures r == PlaceOrder(g, quotes, rules, market)
  {
    if g.seller !in rules { return Err(NoFeeRule); }
    var shipping, fine := ShippingFor(quotes, g.seller), SubtotalFine(g);
    var fee := FeeFor(rules[g.seller], fine);
    var total := ToUnits(fine + shipping * SCALE);
    var allocations := SplitOverLines(Fines(g.rows), fine, shipping, fee, g.currency, g.seller, market);
    var payout := Payout(total, 0, 0, fee, ToUnits(fine + (shipping - fee) * SCALE), g.currency);
    var order := SellerOrder(g.seller, market, g.currency, ToUnits(fine), shipping, fee, total, total,
                             StoredLines(Fines(g.rows)), allocations, payout);
    r := if OrderConstraints(order) then Ok(order) else Err(ConstraintViolation);
  }

  method CreateOrders(groups: seq<Group>, quotes: seq<Quote>, rules: map<int, FeeRule>, market: int)
      returns (r: Result<seq<SellerOrder>, Error>)
    requires forall g :: g in groups ==> g.rows != []
    ensures r == BuildOrders(groups, quotes, rules, market)
  {
    hide PlaceOrder;
    var created := [];
    for i := 0 to |groups|
      invariant BuildOrders(groups[..i], quotes, rules, market) == Ok(created)
    {
      assert groups[..i + 1][..i] == groups[..i];
      var placed := CreateOrder(groups[i], quotes, rules, market);
      if placed.Err? {
        BuildFails(groups, quotes, rules, market, i);
        return Err(placed.error);
      }
      created := created + [placed.value];
    }
    assert groups[..|groups|] == groups;
    r := Ok(created);
  }

  /** Checkout of a cart: quotes and groups are screened, one seller order is placed per group, and
      the audit of every created order decides whether anything is committed. */
  method Checkout(rows: seq<CartRow>, quotes: seq<Quote>, rules: map<int, FeeRule>, market: int)
      returns (r: Result<Book, Error>)
    ensures r == CheckoutCart(rows, quotes, rules, market)
  {
    if rows == [] { return Err(EmptyCart); }
    var groups := GroupCart(rows);
    var screen := Screen(rows, quotes, groups);
    if screen.Some? { return Err(screen.value); }
    var created := CreateOrders(groups, quotes, rules, market);
    if created.Err? { return Err(created.error); }
    var book := BookFor(rows[0].currency, groups, quotes, created.value);
    r := if AuditAll(book) then Ok(book) else Err(AuditFailed);
  }

  /** The first seller order that cannot be placed decides the outcome of the whole cart. */
  lemma {:induction false} BuildFails(groups: seq<Group>, quotes: seq<Quote>, rules: map<int, FeeRule>, market: int,
                                      i: nat)
    requires forall g :: g in groups ==> g.rows != []
    requires i < |groups| && BuildOrders(groups[..i], quotes, rules, market).Ok?
    requires PlaceOrder(groups[i], quotes, rules, market).Err?
    ensures BuildOrders(groups, quotes, rules, market) == Err(PlaceOrder(groups[i], quotes, rules, market).error)
    decreases |groups|
  {
    var init := groups[..|groups| - 1];
    if i < |groups| - 1 {
      assert init[..i] == groups[..i];
      BuildFails(init, quotes, rules, market, i);
    } else {
      assert init == groups[..i];
    }
  }
}
