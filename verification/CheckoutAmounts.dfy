/** What checkout charges: every amount of every seller order, in terms of the cart, the quotes and the rules. */
module CheckoutAmounts {
  import opened Checkout
  import opened Money
  import opened Orders
  import opened Outcomes
  import opened Sums
  import Split

  // ---------------------------------------------------------------- whose rows an order has

  /** The cart rows of one seller and currency, in cart order. */
  function RowsFor(rows: seq<CartRow>, seller: int, currency: string): seq<CartRow> {
    if rows == [] then []
    else
      var n := |rows| - 1;
      RowsFor(rows[..n], seller, currency)
      + if rows[n].seller == seller && rows[n].currency == currency then [rows[n]] else []
  }

  /** The cart rows of one seller, in cart order. */
  function RowsOfSeller(rows: seq<CartRow>, seller: int): seq<CartRow> {
    if rows == [] then []
    else
      var n := |rows| - 1;
      RowsOfSeller(rows[..n], seller) + if rows[n].seller == seller then [rows[n]] else []
  }

  ghost predicate HasGroup(groups: seq<Group>, r: CartRow) {
    exists g :: g in groups && g.seller == r.seller && g.currency == r.currency
  }

  lemma {:induction false} NoRows(rows: seq<CartRow>, seller: int, currency: string)
    requires forall r :: r in rows ==> r.seller != seller || r.currency != currency
    ensures RowsFor(rows, seller, currency) == []
  {
    if rows != [] { NoRows(rows[..|rows| - 1], seller, currency); }
  }

  /** Grouping collects, for every seller and currency of the cart, all of its rows in cart order. */
  lemma {:induction false} GroupsCollectRows(rows: seq<CartRow>)
    ensures forall g :: g in GroupRows(rows) ==> g.rows == RowsFor(rows, g.seller, g.currency)
    ensures forall r :: r in rows ==> HasGroup(GroupRows(rows), r)
  {
    if rows != [] {
      var n := |rows| - 1;
      var init, last := rows[..n], rows[n];
      GroupsCollectRows(init);
      GroupingKeepsRows(init);
      var groups := GroupRows(init);
      assert rows == init + [last] && GroupRows(rows) == AddToGroups(groups, last);
      hide AddToGroups, RowsFor, GroupRows, FindGroup;
      if FindGroup(groups, last.seller, last.currency) == |groups| {
        forall r | r in init ensures r.seller != last.seller || r.currency != last.currency {
          assert HasGroup(groups, r);
        }
        NoRows(init, last.seller, last.currency);
      }
      CollectOneMore(groups, init, last);
    }
  }

  lemma CollectOneMore(groups: seq<Group>, init: seq<CartRow>, last: CartRow)
    requires DistinctKeys(groups) && forall g :: g in groups ==> g.rows != []
    requires forall g :: g in groups ==> g.rows == RowsFor(init, g.seller, g.currency)
    requires forall r :: r in init ==> HasGroup(groups, r)
    requires FindGroup(groups, last.seller, last.currency) == |groups| ==>
               RowsFor(init, last.seller, last.currency) == []
    ensures var more := AddToGroups(groups, last);
            && (forall g :: g in more ==> g.rows == RowsFor(init + [last], g.seller, g.currency))
            && (forall r :: r in init + [last] ==> HasGroup(more, r))
  {
    var i, more := FindGroup(groups, last.seller, last.currency), AddToGroups(groups, last);
    assert (init + [last])[..|init|] == init;
    forall g | g in more ensures g.rows == RowsFor(init + [last], g.seller, g.currency) {
      var j :| 0 <= j < |more| && more[j] == g;
      if i < |groups| { assert groups[i] in groups && groups[j] in groups; }
    }
    forall r | r in init + [last] ensures HasGroup(more, r) {
      if r in init {
        var g :| g in groups && g.seller == r.seller && g.currency == r.currency;
        var j :| 0 <= j < |groups| && groups[j] == g;
        assert more[j] in more;
      } else {
        assert more[i] in more;
      }
    }
  }

  lemma {:induction false} OneCurrency(rows: seq<CartRow>, seller: int, currency: string)
    requires forall r :: r in rows ==> r.currency == currency
    ensures RowsFor(rows, seller, currency) == RowsOfSeller(rows, seller)
  {
    if rows != [] {
      var n := |rows| - 1;
      assert rows[n] in rows;
      OneCurrency(rows[..n], seller, currency);
    }
  }

  // ---------------------------------------------------------------- what the rounded amounts are

  /** A unit amount next to num/den, a tie going up. */
  predicate NearestUp(got: int, num: int, den: int) { -den < 2 * (got * den - num) <= den }

  lemma RoundsUp(num: nat, den: int)
    requires den > 0
    ensures NearestUp(RoundHalfUp(num, den), num, den)
  {
    HalfUpIsNearest(num, den);
    HalfUpTies(num, den);
  }

  /** The shipping quoted for a seller; nothing without quotes. */
  predicate Quoted(shipping: int, quotes: seq<Quote>, seller: int) {
    if quotes == [] then shipping == 0 else exists q :: q in quotes && q.seller == seller && q.fee == shipping
  }

  lemma {:induction false} ShippingIsQuoted(quotes: seq<Quote>, seller: int)
    requires quotes != [] ==> seller in QuoteSellers(quotes)
    ensures Quoted(ShippingFor(quotes, seller), quotes, seller)
  {
    if quotes != [] {
      PickIsQuote(quotes, seller);
      var q := PickQuote(quotes, seller);
      assert q in quotes && q.fee == ShippingFor(quotes, seller);
    }
  }

  /** One seller order against the cart rows it is made of. */
  ghost predicate Charges(o: SellerOrder, own: seq<CartRow>, rule: FeeRule, shipping: int, currency: string,
                          market: int)
  {
    && NearestUp(o.subtotal, SumOf(LineFine, own), SCALE)
    && o.shipping == shipping
    && NearestUp(o.fee, o.subtotal * rule.bps + rule.fixedFee * 10000, 10000)
    && o.total == o.childTotal == o.payout.gross == o.subtotal + o.shipping
    && o.payout.net == o.subtotal + o.shipping - o.fee
    && o.payout.fee == o.fee && o.payout.sellerFunded == o.payout.platformFunded == 0
    && o.currency == o.payout.currency == currency && o.market == market
    && |o.lines| == |o.allocations| == |own|
    && forall j :: 0 <= j < |own| ==>
         var a := o.allocations[j];
         && NearestUp(o.lines[j], own[j].quantity * own[j].price, SCALE)
         && a.gross == o.lines[j] && a.discount == 0 && a.net == a.gross + a.shipping - a.fee
         && a.currency == currency && a.seller == o.seller && a.market == market
  }

  lemma OrderCharges(g: Group, shipping: nat, rule: FeeRule, market: int)
    requires g.rows != [] && OrderConstraints(OrderFor(g, shipping, rule, market))
    ensures Charges(OrderFor(g, shipping, rule, market), g.rows, rule, shipping, g.currency, market)
  {
    var o, fine := OrderFor(g, shipping, rule, market), SubtotalFine(g);
    RoundsUp(fine, SCALE);
    HalfUpIsNearest(fine, SCALE);
    assert o.subtotal * rule.bps >= 0;
    RoundsUp(o.subtotal * rule.bps + rule.fixedFee * 10000, 10000);
    UnitsShift(fine, shipping);
    forall j | 0 <= j < |g.rows|
      ensures NearestUp(o.lines[j], g.rows[j].quantity * g.rows[j].price, SCALE)
      ensures o.allocations[j].net == o.allocations[j].gross + o.allocations[j].shipping - o.allocations[j].fee
    {
      RoundsUp(g.rows[j].quantity * g.rows[j].price, SCALE);
      assert AllocationConstraints(o.allocations[j]);
    }
    hide RoundHalfUp, NearestUp, Split.Shares;
  }

  // ---------------------------------------------------------------- the whole cart

  /** An accepted cart was screened, and its orders were built. */
  lemma {:induction false} AcceptedBook(rows: seq<CartRow>, quotes: seq<Quote>, rules: map<int, FeeRule>, market: int)
    requires CheckoutCart(rows, quotes, rules, market).Ok?
    ensures var groups := GroupRows(rows);
            && rows != [] && Screen(rows, quotes, groups).None? && BuildOrders(groups, quotes, rules, market).Ok?
            && CheckoutCart(rows, quotes, rules, market).value
               == BookFor(rows[0].currency, groups, quotes, BuildOrders(groups, quotes, rules, market).value)
  {
    hide GroupRows, Screen, BuildOrders, BookFor, AuditAll;
  }

  /** Every group of a screened cart holds all rows of its seller, and its seller's quote is known. */
  lemma {:induction false} ScreenedGroups(rows: seq<CartRow>, quotes: seq<Quote>)
    requires rows != [] && Screen(rows, quotes, GroupRows(rows)).None?
    ensures var groups := GroupRows(rows);
            && (forall i, j :: 0 <= i < j < |groups| ==> groups[i].seller != groups[j].seller)
            && forall g :: g in groups ==>
                 && g.rows == RowsOfSeller(rows, g.seller) && g.currency == rows[0].currency
                 && Quoted(ShippingFor(quotes, g.seller), quotes, g.seller)
  {
    var groups := GroupRows(rows);
    GroupsCollectRows(rows);
    GroupingKeepsRows(rows);
    hide GroupRows, ShippingFor, RowsFor, RowsOfSeller, Quoted;
    forall r | r in rows ensures r.currency == rows[0].currency {
      assert HasGroup(groups, r);
    }
    forall i, j | 0 <= i < j < |groups| ensures groups[i].seller != groups[j].seller {
      assert groups[i] in groups && groups[j] in groups;
    }
    forall g | g in groups
      ensures g.rows == RowsOfSeller(rows, g.seller) && Quoted(ShippingFor(quotes, g.seller), quotes, g.seller)
    {
      OneCurrency(rows, g.seller, rows[0].currency);
      assert g.seller in SellersOf(groups);
      ShippingIsQuoted(quotes, g.seller);
    }
  }

  /** The book of an accepted cart, group by group. */
  lemma {:induction false} AcceptedCart(rows: seq<CartRow>, quotes: seq<Quote>, rules: map<int, FeeRule>, market: int)
    requires CheckoutCart(rows, quotes, rules, market).Ok?
    ensures rows != []
    ensures var b, groups := CheckoutCart(rows, quotes, rules, market).value, GroupRows(rows);
            && |b.orders| == |groups| && b.currency == rows[0].currency
            && (forall i, j :: 0 <= i < j < |groups| ==> groups[i].seller != groups[j].seller)
            && forall i :: 0 <= i < |groups| ==>
                 var g := groups[i];
                 && g.rows == RowsOfSeller(rows, g.seller) && g.currency == rows[0].currency
                 && PlaceOrder(g, quotes, rules, market) == Ok(b.orders[i])
                 && Quoted(ShippingFor(quotes, g.seller), quotes, g.seller)
  {
    AcceptedBook(rows, quotes, rules, market);
    ScreenedGroups(rows, quotes);
    var groups := GroupRows(rows);
    hide CheckoutCart, PlaceOrder, Quoted, ShippingFor, RowsOfSeller, GroupRows, BuildOrders, Screen;
    forall i | 0 <= i < |groups|
      ensures PlaceOrder(groups[i], quotes, rules, market)
              == Ok(BuildOrders(groups, quotes, rules, market).value[i])
    {
      OrderIsPlaced(groups, quotes, rules, market, i);
    }
  }

  /** The order of one group of an accepted cart. */
  lemma PlacedCharges(g: Group, quotes: seq<Quote>, rules: map<int, FeeRule>, market: int, o: SellerOrder)
    requires g.rows != [] && PlaceOrder(g, quotes, rules, market) == Ok(o)
    ensures o.seller == g.seller && g.seller in rules && o.shipping == ShippingFor(quotes, g.seller)
    ensures Charges(o, g.rows, rules[g.seller], o.shipping, g.currency, market)
  {
    OrderCharges(g, ShippingFor(quotes, g.seller), rules[g.seller], market);
    hide Charges, OrderConstraints, ShippingFor;
  }

  /** In every book that checkout returns, every seller of the cart has exactly one order. */
  lemma {:induction false} BookSellers(rows: seq<CartRow>, quotes: seq<Quote>, rules: map<int, FeeRule>, market: int)
    requires CheckoutCart(rows, quotes, rules, market).Ok?
    ensures var b := CheckoutCart(rows, quotes, rules, market).value;
            && (forall r :: r in rows ==> exists o :: o in b.orders && o.seller == r.seller)
            && (forall i, j :: 0 <= i < j < |b.orders| ==> b.orders[i].seller != b.orders[j].seller)
  {
    AcceptedCart(rows, quotes, rules, market);
    GroupsCollectRows(rows);
    var b, groups := CheckoutCart(rows, quotes, rules, market).value, GroupRows(rows);
    hide CheckoutCart, RowsFor, RowsOfSeller, ShippingFor, Quoted, GroupRows, PlaceOrder;
    assert forall i :: 0 <= i < |groups| ==> b.orders[i].seller == groups[i].seller by {
      forall i | 0 <= i < |groups| ensures b.orders[i].seller == groups[i].seller {
        assert groups[i] in groups;
        PlacedCharges(groups[i], quotes, rules, market, b.orders[i]);
      }
    }
    hide Charges;
    forall r | r in rows ensures exists o :: o in b.orders && o.seller == r.seller {
      assert HasGroup(groups, r);
      var g :| g in groups && g.seller == r.seller && g.currency == r.currency;
      var i :| 0 <= i < |groups| && groups[i] == g;
      assert b.orders[i] in b.orders;
    }
  }

  /** Main result: every order of a book that checkout returns is charged what its seller's rows, quote and
      commission rule come to. */
  lemma {:induction false} BookCharges(rows: seq<CartRow>, quotes: seq<Quote>, rules: map<int, FeeRule>, market: int,
                                       i: nat)
    requires CheckoutCart(rows, quotes, rules, market).Ok?
    requires i < |CheckoutCart(rows, quotes, rules, market).value.orders|
    ensures var b, o := CheckoutCart(rows, quotes, rules, market).value,
                CheckoutCart(rows, quotes, rules, market).value.orders[i];
            && rows != [] && b.currency == rows[0].currency
            && o.seller in rules && RowsOfSeller(rows, o.seller) != [] && Quoted(o.shipping, quotes, o.seller)
            && Charges(o, RowsOfSeller(rows, o.seller), rules[o.seller], o.shipping, b.currency, market)
  {
    AcceptedCart(rows, quotes, rules, market);
    var b, g := CheckoutCart(rows, quotes, rules, market).value, GroupRows(rows)[i];
    assert g in GroupRows(rows);
    hide CheckoutCart, RowsOfSeller, ShippingFor, Quoted, Charges, PlaceOrder, GroupRows;
    PlacedCharges(g, quotes, rules, market, b.orders[i]);
  }

  /** Every line carries its proportion of the order's fee and shipping; without value the last one carries all. */
  lemma OrderShares(g: Group, shipping: nat, rule: FeeRule, market: int, j: nat)
    requires j < |g.rows|
    ensures var o, exact := OrderFor(g, shipping, rule, market), SumOf(LineFine, g.rows);
            var a, line, slack := o.allocations[j], LineFine(g.rows[j]), Split.Slack(j, |g.rows|);
            && exact >= 0
            && (exact > 0 ==>
                  && -(slack * exact) <= 2 * (a.fee * exact - o.fee * line) <= slack * exact
                  && -(slack * exact) <= 2 * (a.shipping * exact - o.shipping * line) <= slack * exact)
            && (exact == 0 ==>
                  && a.fee == (if j + 1 < |g.rows| then 0 else o.fee)
                  && a.shipping == (if j + 1 < |g.rows| then 0 else o.shipping))
  {
    var fines, fine, fee := Fines(g.rows), SubtotalFine(g), FeeFor(rule, SubtotalFine(g));
    if fine > 0 {
      AllocationsAreFair(g, shipping, rule, market, j);
    } else {
      Split.ShareAt(Split.HalfUp, fee, fines, fine, j);
      Split.ShareAt(Split.HalfUp, shipping, fines, fine, j);
      NothingApportioned(fee, fines[..|fines| - 1]);
      NothingApportioned(shipping, fines[..|fines| - 1]);
    }
    hide FeeFor, RoundHalfUp, Split.Shares;
  }

  lemma {:induction false} NothingApportioned(amount: int, parts: seq<int>)
    ensures Split.HandedOut(Split.HalfUp, amount, parts, 0) == 0
  {
    if parts != [] {
      var n := |parts| - 1;
      NothingApportioned(amount, parts[..n]);
      Split.HandOutNext(Split.HalfUp, amount, parts, 0, n);
      assert parts[..n + 1] == parts;
    }
  }

  /** In every book that checkout returns, each line carries its proportion of its order's fee and shipping. */
  lemma {:induction false} BookShares(rows: seq<CartRow>, quotes: seq<Quote>, rules: map<int, FeeRule>, market: int,
                                      i: nat, j: nat)
    requires CheckoutCart(rows, quotes, rules, market).Ok?
    requires i < |CheckoutCart(rows, quotes, rules, market).value.orders|
    requires var o := CheckoutCart(rows, quotes, rules, market).value.orders[i]; j < |RowsOfSeller(rows, o.seller)|
    ensures var o := CheckoutCart(rows, quotes, rules, market).value.orders[i];
            var own := RowsOfSeller(rows, o.seller);
            && j < |o.allocations| == |own|
            && var a, exact := o.allocations[j], SumOf(LineFine, own);
               var line, slack := LineFine(own[j]), Split.Slack(j, |own|);
            && exact >= 0
            && (exact > 0 ==>
                  && -(slack * exact) <= 2 * (a.fee * exact - o.fee * line) <= slack * exact
                  && -(slack * exact) <= 2 * (a.shipping * exact - o.shipping * line) <= slack * exact)
            && (exact == 0 ==>
                  && a.fee == (if j + 1 < |own| then 0 else o.fee)
                  && a.shipping == (if j + 1 < |own| then 0 else o.shipping))
  {
    AcceptedCart(rows, quotes, rules, market);
    var g := GroupRows(rows)[i];
    assert g in GroupRows(rows);
    hide CheckoutCart, RowsOfSeller, ShippingFor, GroupRows, OrderConstraints, Quoted, LineFine;
    OrderShares(g, ShippingFor(quotes, g.seller), rules[g.seller], market, j);
    hide Split.Slack, FeeFor, AllocateLines;
  }
}
