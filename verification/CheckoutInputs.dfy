/** When checkout succeeds, from the cart alone: for every cart, and for line totals that are whole units. */
module CheckoutInputs {
  import opened Checkout
  import opened Money
  import opened Orders
  import opened Outcomes
  import opened Sums
  import Split

  // ---------------------------------------------------------------- rounded shares of whole units

  lemma ProductOrder(a: int, b: int, c: int)
    requires a <= b && c >= 0
    ensures c * a <= c * b
  {
  }

  lemma QuotientOrder(a: int, b: int, den: int)
    requires den > 0 && a <= b
    ensures a / den <= b / den
  {
    DivBounds(a, den);
    DivBounds(b, den);
    var p, q := a / den, b / den;
    if p > q { ProductOrder(q + 1, p, den); }
  }

  lemma HalfUpOrder(a: int, b: int, den: int)
    requires den > 0 && 0 <= a <= b
    ensures RoundHalfUp(a, den) <= RoundHalfUp(b, den)
  {
    QuotientOrder(2 * a + den, 2 * b + den, 2 * den);
  }

  lemma QuotientShift(a: int, k: int, den: int)
    requires den > 0
    ensures (a + k * den) / den == a / den + k
  {
    var p, q := a / den, (a + k * den) / den;
    DivBounds(a, den);
    DivBounds(a + k * den, den);
    assert den * (p + k) == den * p + k * den;
    if q > p + k { ProductOrder(p + k + 1, q, den); }
    if q < p + k { ProductOrder(q + 1, p + k, den); }
  }

  lemma HalfUpShift(a: int, k: int, den: int)
    requires den > 0 && a >= 0 && k >= 0
    ensures a + k * den >= 0 && RoundHalfUp(a + k * den, den) == RoundHalfUp(a, den) + k
  {
    ProductOrder(0, k, den);
    assert 2 * (a + k * den) + den == 2 * a + den + k * (2 * den);
    QuotientShift(2 * a + den, k, 2 * den);
  }

  /** A share of a fee that the whole can pay is paid by the same share of the whole: of `units` whole units
      plus the shipping, when the line is worth `line` of them. */
  lemma ShareIsPaid(fee: nat, shipping: nat, units: nat, line: nat)
    requires fee <= units + shipping && line <= units && units > 0
    ensures var whole := units * SCALE;
            var f, s := RoundHalfUp(fee * (line * SCALE), whole), RoundHalfUp(shipping * (line * SCALE), whole);
            0 <= f && 0 <= s && f <= line + s
  {
    var whole, part := units * SCALE, line * SCALE;
    assert shipping * part >= 0 && fee * part >= 0;
    HalfUpIsNearest(fee * part, whole);
    HalfUpIsNearest(shipping * part, whole);
    ProductOrder(fee, units + shipping, part);
    assert (units + shipping) * part == shipping * part + line * whole;
    HalfUpOrder(fee * part, shipping * part + line * whole, whole);
    HalfUpShift(shipping * part, line, whole);
  }

  // ---------------------------------------------------------------- one seller order

  ghost predicate GridRows(g: Group) { forall r :: r in g.rows ==> OnGrid(r) }

  function FeeShares(g: Group, fee: int): (r: seq<int>)
    requires g.rows != []
    ensures |r| == |g.rows|
  {
    Split.Shares(Split.HalfUp, fee, Fines(g.rows), SubtotalFine(g))
  }

  function LineUnits(g: Group, i: nat): int
    requires i < |g.rows|
  {
    ToUnits(LineFine(g.rows[i]))
  }

  /** What rounding leaves to the last line is a fee and a shipping that the line can carry. */
  ghost predicate LastLineFits(g: Group, shipping: nat, fee: int)
    requires g.rows != []
  {
    var n := |g.rows| - 1;
    var lastFee, lastShipping := FeeShares(g, fee)[n], FeeShares(g, shipping)[n];
    fee <= GroupUnits(g) + shipping && lastFee >= 0 && lastShipping >= 0 && lastFee <= LineUnits(g, n) + lastShipping
  }

  lemma GridLine(r: CartRow)
    requires OnGrid(r)
    ensures LineFine(r) == ToUnits(LineFine(r)) * SCALE && ToUnits(LineFine(r)) >= 0
  {
    assert r.quantity * r.price >= 0;
    UnitsOnGrid(LineFine(r) / SCALE);
  }

  lemma GridSubtotal(g: Group)
    requires GridRows(g)
    ensures SubtotalFine(g) == GroupFine(g) == GroupUnits(g) * SCALE && GroupUnits(g) >= 0
  {
    GridGroup(g);
    GroupFineNonNegative(g.rows);
    UnitsOnGrid(GroupFine(g) / SCALE);
  }

  lemma {:induction false} LineWithinSum(rows: seq<CartRow>, i: nat)
    requires i < |rows|
    ensures LineFine(rows[i]) <= SumOf(LineFine, rows)
  {
    var n := |rows| - 1;
    assert rows[n].quantity * rows[n].price >= 0;
    if i < n { LineWithinSum(rows[..n], i); } else { GroupFineNonNegative(rows[..n]); }
  }

  /** Every line but the last carries its shares, if the order can pay the fee at all. */
  lemma EarlierLinesFit(g: Group, shipping: nat, fee: nat, i: nat)
    requires i + 1 < |g.rows| && GridRows(g) && fee <= GroupUnits(g) + shipping
    ensures 0 <= FeeShares(g, fee)[i] <= LineUnits(g, i) + FeeShares(g, shipping)[i] && FeeShares(g, shipping)[i] >= 0
  {
    GridSubtotal(g);
    GridLine(g.rows[i]) by { assert g.rows[i] in g.rows; }
    LineWithinSum(g.rows, i);
    Split.ShareAt(Split.HalfUp, fee, Fines(g.rows), SubtotalFine(g), i);
    Split.ShareAt(Split.HalfUp, shipping, Fines(g.rows), SubtotalFine(g), i);
    var units, line := GroupUnits(g), LineUnits(g, i);
    assert Fines(g.rows)[i] == line * SCALE && SubtotalFine(g) == units * SCALE;
    hide LineFine, GroupFine, RoundHalfUp, SubtotalFine, ToUnits;
    if units > 0 { ShareIsPaid(fee, shipping, units, line); }
  }

  lemma AllocationFitsIff(line: nat, shipping: int, fee: int, currency: string, seller: int, market: int)
    ensures AllocationConstraints(AllocateLine(line * SCALE, shipping, fee, currency, seller, market))
            <==> shipping >= 0 && 0 <= fee <= line + shipping
  {
    UnitsOnGrid(line);
    UnitsOnGrid(line + shipping - fee);
    assert line * SCALE + (shipping - fee) * SCALE == (line + shipping - fee) * SCALE;
    hide ToUnits;
  }

  lemma FeeIsNonNegative(rule: FeeRule, fine: nat)
    ensures FeeFor(rule, fine) >= 0
  {
    HalfUpIsNearest(fine, SCALE);
    assert ToUnits(fine) * rule.bps >= 0;
    HalfUpIsNearest(ToUnits(fine) * rule.bps + rule.fixedFee * 10000, 10000);
  }

  lemma AllocationAt(g: Group, shipping: nat, rule: FeeRule, market: int, i: nat)
    requires i < |g.rows| && GridRows(g)
    ensures var fee, a := FeeFor(rule, SubtotalFine(g)), OrderFor(g, shipping, rule, market).allocations[i];
            AllocationConstraints(a)
            <==> FeeShares(g, shipping)[i] >= 0
                 && 0 <= FeeShares(g, fee)[i] <= LineUnits(g, i) + FeeShares(g, shipping)[i]
  {
    GridLine(g.rows[i]) by { assert g.rows[i] in g.rows; }
    var fee := FeeFor(rule, SubtotalFine(g));
    var line := LineUnits(g, i);
    assert Fines(g.rows)[i] == line * SCALE;
    assert OrderFor(g, shipping, rule, market).allocations[i]
        == AllocateLine(line * SCALE, FeeShares(g, shipping)[i], FeeShares(g, fee)[i], g.currency, g.seller, market);
    hide *;
    AllocationFitsIff(line, FeeShares(g, shipping)[i], FeeShares(g, fee)[i], g.currency, g.seller, market);
  }

  lemma PayoutFitsIff(g: Group, shipping: nat, rule: FeeRule, market: int)
    requires g.rows != [] && GridRows(g)
    ensures var fee, o := FeeFor(rule, SubtotalFine(g)), OrderFor(g, shipping, rule, market);
            && fee >= 0 && o.subtotal >= 0 && o.shipping >= 0 && o.fee >= 0 && o.total >= 0 && o.childTotal >= 0
            && (PayoutConstraints(o.payout) <==> fee <= GroupUnits(g) + shipping)
  {
    var fee, units := FeeFor(rule, SubtotalFine(g)), GroupUnits(g);
    GridSubtotal(g);
    FeeIsNonNegative(rule, SubtotalFine(g));
    UnitsOnGrid(units);
    UnitsOnGrid(units + shipping);
    UnitsOnGrid(units + shipping - fee);
    assert units * SCALE + (shipping - fee) * SCALE == (units + shipping - fee) * SCALE;
    assert units * SCALE + shipping * SCALE == (units + shipping) * SCALE;
    hide ToUnits, FeeFor, GroupFine, GroupUnits;
  }

  /** The rows of an order of whole units are accepted if and only if its last line fits. */
  lemma GridOrderFitsIff(g: Group, shipping: nat, rule: FeeRule, market: int)
    requires g.rows != [] && GridRows(g)
    ensures OrderConstraints(OrderFor(g, shipping, rule, market)) <==>
              LastLineFits(g, shipping, FeeFor(rule, SubtotalFine(g)))
  {
    var fee, o := FeeFor(rule, SubtotalFine(g)), OrderFor(g, shipping, rule, market);
    var n := |g.rows| - 1;
    assert |o.allocations| == |g.rows|;
    PayoutFitsIff(g, shipping, rule, market);
    AllocationAt(g, shipping, rule, market, n);
    hide OrderFor, FeeFor, FeeShares, LineUnits, AllocationConstraints, PayoutConstraints, GroupUnits, GridRows,
         SubtotalFine;
    if OrderConstraints(o) {
      assert AllocationConstraints(o.allocations[n]);
    }
    if LastLineFits(g, shipping, fee) {
      forall a | a in o.allocations ensures AllocationConstraints(a) {
        var i :| 0 <= i < |o.allocations| && o.allocations[i] == a;
        AllocationAt(g, shipping, rule, market, i);
        if i < n { EarlierLinesFit(g, shipping, fee, i); }
      }
    }
  }

  // ---------------------------------------------------------------- the whole cart

  lemma {:induction false} AllPlacedIff(groups: seq<Group>, quotes: seq<Quote>, rules: map<int, FeeRule>, market: int)
    requires forall g :: g in groups ==> g.rows != []
    ensures BuildOrders(groups, quotes, rules, market).Ok? <==>
              forall g :: g in groups ==> PlaceOrder(g, quotes, rules, market).Ok?
  {
    hide PlaceOrder;
    if groups != [] {
      var n := |groups| - 1;
      AllPlacedIff(groups[..n], quotes, rules, market);
      assert forall g :: g in groups <==> g in groups[..n] || g == groups[n];
    }
  }

  ghost predicate SellerFits(g: Group, quotes: seq<Quote>, rules: map<int, FeeRule>)
    requires g.rows != []
  {
    g.seller in rules && LastLineFits(g, ShippingFor(quotes, g.seller), FeeFor(rules[g.seller], SubtotalFine(g)))
  }

  /** Main result, from the cart alone: with line totals in whole units and the quotes in order, checkout
      succeeds if and only if every seller has a fee rule and the last line of every order fits. */
  lemma GridCheckoutIff(rows: seq<CartRow>, quotes: seq<Quote>, rules: map<int, FeeRule>, market: int)
    requires rows != [] && Screen(rows, quotes, GroupRows(rows)).None? && forall r :: r in rows ==> OnGrid(r)
    ensures CheckoutCart(rows, quotes, rules, market).Ok? <==>
              forall g :: g in GroupRows(rows) ==> SellerFits(g, quotes, rules)
  {
    var groups := GroupRows(rows);
    GridCartsAgree(rows);
    GroupsHoldCartRows(rows);
    AllPlacedIff(groups, quotes, rules, market);
    forall g | g in groups ensures PlaceOrder(g, quotes, rules, market).Ok? <==> SellerFits(g, quotes, rules) {
      assert GridRows(g);
      if g.seller in rules { GridOrderFitsIff(g, ShippingFor(quotes, g.seller), rules[g.seller], market); }
    }
    hide RoundingAgrees, GroupRows, PlaceOrder, SellerFits, OnGrid;
    if BuildOrders(groups, quotes, rules, market).Ok? { CheckoutSucceedsIff(rows, quotes, rules, market); }
  }

  // ---------------------------------------------------------------- any cart

  /** Goods and shipping pay the fee, or miss it by less than half a unit. */
  predicate Covers(fine: int, shipping: int, fee: int) { 2 * (fine + (shipping - fee) * SCALE) > -SCALE }

  lemma NetCovers(fine: nat, shipping: int, fee: int)
    ensures var net := ToUnits(fine + (shipping - fee) * SCALE);
            net >= 0 && net == ToUnits(fine) + shipping - fee <==> Covers(fine, shipping, fee)
    ensures shipping >= 0 ==>
              var gross, net := ToUnits(fine + shipping * SCALE), ToUnits(fine + (shipping - fee) * SCALE);
              gross >= 0 && (gross >= fee && net == gross - fee <==> Covers(fine, shipping, fee))
  {
    HalfUpIsNearest(fine, SCALE);
    HalfUpIsNearest(fine + (shipping - fee) * SCALE, SCALE);
    if shipping >= 0 { UnitsShift(fine, shipping); }
    if fine + (shipping - fee) * SCALE >= 0 { UnitsShift(fine, shipping - fee); }
  }

  ghost predicate LineFits(g: Group, shipping: int, fee: int, i: nat)
    requires i < |g.rows|
  {
    var f, s := FeeShares(g, fee)[i], FeeShares(g, shipping)[i];
    f >= 0 && s >= 0 && Covers(LineFine(g.rows[i]), s, f)
  }

  ghost predicate OrderFits(g: Group, shipping: nat, fee: int)
    requires g.rows != []
  {
    Covers(SubtotalFine(g), shipping, fee) && forall i :: 0 <= i < |g.rows| ==> LineFits(g, shipping, fee, i)
  }

  /** The rows of an order are accepted if and only if the order and each of its lines cover their fees. */
  lemma OrderFitsIff(g: Group, shipping: nat, rule: FeeRule, market: int)
    requires g.rows != []
    ensures OrderConstraints(OrderFor(g, shipping, rule, market)) <==>
              OrderFits(g, shipping, FeeFor(rule, SubtotalFine(g)))
  {
    var fee, o := FeeFor(rule, SubtotalFine(g)), OrderFor(g, shipping, rule, market);
    FeeIsNonNegative(rule, SubtotalFine(g));
    HalfUpIsNearest(SubtotalFine(g), SCALE);
    NetCovers(SubtotalFine(g), shipping, fee);
    assert PayoutConstraints(o.payout) <==> Covers(SubtotalFine(g), shipping, fee);
    forall i | 0 <= i < |g.rows| ensures AllocationConstraints(o.allocations[i]) <==> LineFits(g, shipping, fee, i) {
      LineFitsIff(g, shipping, rule, market, i);
    }
    hide OrderFor, FeeFor, LineFits, AllocationConstraints, PayoutConstraints, Covers, SubtotalFine;
  }

  lemma LineFitsIff(g: Group, shipping: nat, rule: FeeRule, market: int, i: nat)
    requires i < |g.rows|
    ensures AllocationConstraints(OrderFor(g, shipping, rule, market).allocations[i])
            <==> LineFits(g, shipping, FeeFor(rule, SubtotalFine(g)), i)
  {
    var fee := FeeFor(rule, SubtotalFine(g));
    var f, s := FeeShares(g, fee)[i], FeeShares(g, shipping)[i];
    assert g.rows[i].quantity * g.rows[i].price >= 0;
    assert Fines(g.rows)[i] == LineFine(g.rows[i]);
    assert OrderFor(g, shipping, rule, market).allocations[i]
           == AllocateLine(LineFine(g.rows[i]), s, f, g.currency, g.seller, market);
    hide OrderFor, FeeFor, FeeShares, SubtotalFine;
    NetCovers(LineFine(g.rows[i]), s, f);
    HalfUpIsNearest(LineFine(g.rows[i]), SCALE);
    hide ToUnits, Covers;
  }

  ghost predicate Accepted(g: Group, quotes: seq<Quote>, rules: map<int, FeeRule>)
    requires g.rows != []
  {
    g.seller in rules && OrderFits(g, ShippingFor(quotes, g.seller), FeeFor(rules[g.seller], SubtotalFine(g)))
  }

  /** Main result, for every cart: checkout succeeds if and only if the quotes and currencies are in order,
      every seller has a fee rule, every order and each of its lines cover their fees, and rounding agrees. */
  lemma CheckoutIff(rows: seq<CartRow>, quotes: seq<Quote>, rules: map<int, FeeRule>, market: int)
    ensures CheckoutCart(rows, quotes, rules, market).Ok? <==>
              && rows != [] && Screen(rows, quotes, GroupRows(rows)).None?
              && (forall g :: g in GroupRows(rows) ==> Accepted(g, quotes, rules))
              && RoundingAgrees(GroupRows(rows))
  {
    if rows != [] {
      var groups := GroupRows(rows);
      AllPlacedIff(groups, quotes, rules, market);
      forall g | g in groups ensures PlaceOrder(g, quotes, rules, market).Ok? <==> Accepted(g, quotes, rules) {
        if g.seller in rules { OrderFitsIff(g, ShippingFor(quotes, g.seller), rules[g.seller], market); }
      }
      hide RoundingAgrees, GroupRows, PlaceOrder, Accepted, Screen, AuditAll;
      if Screen(rows, quotes, groups).None? && BuildOrders(groups, quotes, rules, market).Ok? {
        CheckoutSucceedsIff(rows, quotes, rules, market);
      }
    }
  }

  // ---------------------------------------------------------------- exact shares with room for rounding

  lemma {:induction false} NothingToShare(parts: seq<int>, whole: nat)
    ensures Split.HandedOut(Split.HalfUp, 0, parts, whole) == 0
  {
    if parts != [] {
      var n := |parts| - 1;
      NothingToShare(parts[..n], whole);
      Split.HandOutNext(Split.HalfUp, 0, parts, whole, n);
      assert parts[..n + 1] == parts && 0 * parts[n] == 0;
    }
  }

  /** The exact last share is nothing, or at least half a unit per other line. */
  ghost predicate RoomFor(g: Group, amount: int)
    requires g.rows != []
  {
    var n := |g.rows| - 1;
    amount == 0 || 2 * (amount * LineFine(g.rows[n])) >= Split.Times(n, GroupFine(g))
  }

  /** The order can pay the fee, the exact last shares of fee and shipping leave room for rounding, and so
      does the last line's exact share of what the seller gets. */
  ghost predicate HasRoom(g: Group, shipping: nat, fee: int)
    requires g.rows != []
  {
    var n, net := |g.rows| - 1, GroupUnits(g) + shipping - fee;
    net >= 0 && RoomFor(g, fee) && RoomFor(g, shipping) && net * LineFine(g.rows[n]) >= Split.Times(n, GroupFine(g))
  }

  lemma LastShareOf(g: Group, amount: nat)
    requires g.rows != [] && GroupFine(g) > 0 && RoomFor(g, amount)
    ensures var n := |g.rows| - 1;
            FeeShares(g, amount)[n] >= 0
            && Split.WithinDrift(FeeShares(g, amount)[n], LineFine(g.rows[n]), amount, GroupFine(g), n)
  {
    var n := |g.rows| - 1;
    GroupFineNonNegative(g.rows);
    SumSame(Split.Identity, Fines(g.rows), LineFine, g.rows);
    Split.LastShareDrift(Split.HalfUp, amount, Fines(g.rows), SubtotalFine(g));
    if amount == 0 {
      Split.ShareAt(Split.HalfUp, 0, Fines(g.rows), SubtotalFine(g), n);
      NothingToShare(Fines(g.rows)[..n], SubtotalFine(g));
    } else {
      Split.LastShareNonNegative(Split.HalfUp, amount, Fines(g.rows), SubtotalFine(g));
    }
  }

  lemma WorthlessOrder(g: Group, amount: nat)
    requires g.rows != [] && GroupFine(g) == 0
    ensures FeeShares(g, amount)[|g.rows| - 1] == amount
  {
    var n := |g.rows| - 1;
    Split.ShareAt(Split.HalfUp, amount, Fines(g.rows), 0, n);
    ZeroWhole(amount, Fines(g.rows)[..n]);
  }

  lemma {:induction false} ZeroWhole(amount: int, parts: seq<int>)
    ensures Split.HandedOut(Split.HalfUp, amount, parts, 0) == 0
  {
    if parts != [] {
      var n := |parts| - 1;
      ZeroWhole(amount, parts[..n]);
      Split.HandOutNext(Split.HalfUp, amount, parts, 0, n);
      assert parts[..n + 1] == parts;
    }
  }

  /** Two shares that stay within their drift differ by no more than the line can pay. */
  lemma DriftsFit(f: int, s: int, fee: int, shipping: int, units: int, line: int, drift: int)
    requires units > 0
    requires Split.Drift(f, line * SCALE, fee, units * SCALE) <= drift
    requires -drift <= Split.Drift(s, line * SCALE, shipping, units * SCALE)
    requires (units + shipping - fee) * (line * SCALE) >= drift
    ensures f <= line + s
  {
    var whole, part := units * SCALE, line * SCALE;
    assert (units + shipping - fee) * part == line * whole + shipping * part - fee * part;
    assert (line + s - f) * whole == line * whole + s * whole - f * whole;
    if line + s - f < 0 { ProductOrder(line + s - f, -1, whole); }
  }

  lemma RoomSuffices(g: Group, shipping: nat, fee: nat)
    requires g.rows != [] && GridRows(g) && HasRoom(g, shipping, fee)
    ensures LastLineFits(g, shipping, fee)
  {
    var n := |g.rows| - 1;
    GridSubtotal(g);
    GridLine(g.rows[n]) by { assert g.rows[n] in g.rows; }
    if GroupFine(g) == 0 {
      WorthlessOrder(g, fee);
      WorthlessOrder(g, shipping);
    } else {
      LastShareOf(g, fee);
      LastShareOf(g, shipping);
      var f, s, units, line := FeeShares(g, fee)[n], FeeShares(g, shipping)[n], GroupUnits(g), LineUnits(g, n);
      assert LineFine(g.rows[n]) == line * SCALE && GroupFine(g) == units * SCALE;
      hide FeeShares, LineFine, GroupFine, GroupUnits, LineUnits, SubtotalFine, Split.Drift, Split.Times;
      DriftsFit(f, s, fee, shipping, units, line, Split.Times(n, units * SCALE));
    }
  }

  /** In particular, checkout succeeds whenever every seller has a fee rule and every order has room. */
  lemma GridCheckoutSucceeds(rows: seq<CartRow>, quotes: seq<Quote>, rules: map<int, FeeRule>, market: int)
    requires rows != [] && Screen(rows, quotes, GroupRows(rows)).None? && forall r :: r in rows ==> OnGrid(r)
    requires forall g :: g in GroupRows(rows) ==> g.seller in rules
    requires forall g :: g in GroupRows(rows) ==>
               HasRoom(g, ShippingFor(quotes, g.seller), FeeFor(rules[g.seller], SubtotalFine(g)))
    ensures CheckoutCart(rows, quotes, rules, market).Ok?
  {
    GridCheckoutIff(rows, quotes, rules, market);
    GroupsHoldCartRows(rows);
    forall g | g in GroupRows(rows) ensures SellerFits(g, quotes, rules) {
      assert GridRows(g);
      FeeIsNonNegative(rules[g.seller], SubtotalFine(g));
      RoomSuffices(g, ShippingFor(quotes, g.seller), FeeFor(rules[g.seller], SubtotalFine(g)));
    }
  }

  // ---------------------------------------------------------------- carts that are refused

  lemma {:induction false} OneSeller(rows: seq<CartRow>, seller: int, currency: string)
    requires rows != [] && forall r :: r in rows ==> r.seller == seller && r.currency == currency
    ensures GroupRows(rows) == [Group(seller, currency, rows)]
  {
    var n := |rows| - 1;
    var init, last := rows[..n], rows[n];
    assert rows == init + [last];
    if n > 0 {
      OneSeller(init, seller, currency);
      assert FindGroup(GroupRows(init), seller, currency) == 0;
    }
  }

  lemma OneOrder(g: Group, quotes: seq<Quote>, rules: map<int, FeeRule>, market: int)
    requires g.rows != []
    ensures BuildOrders([g], quotes, rules, market) ==
      match PlaceOrder(g, quotes, rules, market)
      case Ok(o) => Ok([o])
      case Err(e) => Err(e)
  {
    hide PlaceOrder;
    var groups := [g];
    assert groups[..|groups| - 1] == [] && groups[|groups| - 1] == g;
    assert BuildOrders([], quotes, rules, market) == Ok([]);
    if PlaceOrder(g, quotes, rules, market).Ok? {
      assert [] + [PlaceOrder(g, quotes, rules, market).value] == [PlaceOrder(g, quotes, rules, market).value];
    }
  }

  const HALF_LINE := CartRow(7, "USD", 5000, 1)

  /** Two lines of half a unit: rounded one by one they are two units, together one. The audit refuses the cart. */
  lemma FractionalCartIsRefused(market: int)
    ensures CheckoutCart([HALF_LINE, HALF_LINE], [], map[7 := FeeRule(0, 0)], market) == Err(AuditFailed)
  {
    var rows, rules := [HALF_LINE, HALF_LINE], map[7 := FeeRule(0, 0)];
    var g := Group(7, "USD", rows);
    OneSeller(rows, 7, "USD");
    FractionalQuantitiesCanDisagree();
    FractionalOrder(market);
    OneOrder(g, [], rules, market);
    assert Screen(rows, [], [g]).None?;
    hide OrderFor, RoundingAgrees, AuditAll, BookFor, BuildOrders, GroupRows, OrderConstraints, Screen;
    CheckoutSucceedsIff(rows, [], rules, market);
  }

  /** Without shipping and fee every allocation row of non-negative lines is accepted. */
  lemma FreeLines(fines: seq<int>, whole: nat, currency: string, seller: int, market: int)
    requires fines != [] && forall x :: x in fines ==> x >= 0
    ensures forall a :: a in AllocateLines(fines, whole, 0, 0, currency, seller, market) ==> AllocationConstraints(a)
  {
    var a := AllocateLines(fines, whole, 0, 0, currency, seller, market);
    forall i | 0 <= i < |a| ensures AllocationConstraints(a[i]) {
      NoShare(fines, whole, i);
      assert a[i] == AllocateLine(fines[i], 0, 0, currency, seller, market);
      HalfUpIsNearest(fines[i], SCALE);
      assert fines[i] in fines && fines[i] + (0 - 0) * SCALE == fines[i];
    }
    hide *;
  }

  lemma NoShare(parts: seq<int>, whole: nat, i: nat)
    requires i < |parts|
    ensures Split.Shares(Split.HalfUp, 0, parts, whole)[i] == 0
  {
    Split.ShareAt(Split.HalfUp, 0, parts, whole, i);
    NothingToShare(parts[..|parts| - 1], whole);
    assert 0 * parts[i] == 0;
  }

  lemma FreeTotals(g: Group, market: int)
    requires g.rows != [] && SubtotalFine(g) == 10000
    ensures var o := OrderFor(g, 0, FeeRule(0, 0), market);
            o.fee == 0 && o.subtotal == o.total == o.childTotal == o.payout.net == o.payout.gross == 1
  {
    hide AllocateLines, Fines, StoredLines;
  }

  lemma FractionalOrder(market: int)
    ensures OrderConstraints(OrderFor(Group(7, "USD", [HALF_LINE, HALF_LINE]), 0, FeeRule(0, 0), market))
  {
    var g := Group(7, "USD", [HALF_LINE, HALF_LINE]);
    TwoLines(HALF_LINE, g.rows);
    FreeTotals(g, market);
    FreeLines(Fines(g.rows), 10000, "USD", 7, market);
    var o := OrderFor(g, 0, FeeRule(0, 0), market);
    assert o.allocations == AllocateLines(Fines(g.rows), 10000, 0, o.fee, "USD", 7, market);
    hide OrderFor, AllocateLines, Fines, AllocationConstraints;
  }

  lemma TwoLines(r: CartRow, rows: seq<CartRow>)
    requires rows == [r, r]
    ensures SumOf(LineFine, rows) == 2 * LineFine(r)
  {
    SumAppend(LineFine, [], r);
    SumAppend(LineFine, [r], r);
    assert [] + [r] == [r] && [r] + [r] == rows;
  }

  const UNIT_LINE := CartRow(7, "USD", 10000, 1)

  /** Four equal lines and a fee of two units: the last line's share is -1, and its row is refused. */
  lemma NegativeShareIsRefused(market: int)
    ensures CheckoutCart([UNIT_LINE, UNIT_LINE, UNIT_LINE, UNIT_LINE], [], map[7 := FeeRule(0, 2)], market)
            == Err(ConstraintViolation)
  {
    var rows, rules := [UNIT_LINE, UNIT_LINE, UNIT_LINE, UNIT_LINE], map[7 := FeeRule(0, 2)];
    var g := Group(7, "USD", rows);
    OneSeller(rows, 7, "USD");
    NegativeShare(g, market);
    OneOrder(g, [], rules, market);
    assert Screen(rows, [], [g]).None?;
    hide OrderFor, AuditAll, BookFor, BuildOrders, GroupRows, OrderConstraints, Screen;
  }

  lemma NegativeShare(g: Group, market: int)
    requires g == Group(7, "USD", [UNIT_LINE, UNIT_LINE, UNIT_LINE, UNIT_LINE])
    ensures !OrderConstraints(OrderFor(g, 0, FeeRule(0, 2), market))
  {
    FourLines(g.rows);
    var parts := [10000, 10000, 10000, 10000];
    assert Fines(g.rows) == parts && SubtotalFine(g) == 40000;
    LastOfFour(parts);
    var o := OrderFor(g, 0, FeeRule(0, 2), market);
    assert o.fee == 2 && o.allocations[3].fee == -1;
    assert o.allocations[3] in o.allocations;
  }

  lemma FourLines(rows: seq<CartRow>)
    requires rows == [UNIT_LINE, UNIT_LINE, UNIT_LINE, UNIT_LINE]
    ensures SumOf(LineFine, rows) == 40000
  {
    var one := UNIT_LINE;
    SumAppend(LineFine, [], one);
    SumAppend(LineFine, [one], one);
    SumAppend(LineFine, [one, one], one);
    SumAppend(LineFine, [one, one, one], one);
    assert [] + [one] == [one] && [one] + [one] == [one, one] && [one, one] + [one] == [one, one, one];
    assert [one, one, one] + [one] == rows;
  }

  lemma LastOfFour(parts: seq<int>)
    requires parts == [10000, 10000, 10000, 10000]
    ensures Split.Shares(Split.HalfUp, 2, parts, 40000)[3] == -1
  {
    Split.NothingHandedOut(Split.HalfUp, 2, parts, 40000);
    Split.HandOutNext(Split.HalfUp, 2, parts, 40000, 0);
    Split.HandOutNext(Split.HalfUp, 2, parts, 40000, 1);
    Split.HandOutNext(Split.HalfUp, 2, parts, 40000, 2);
    Split.ShareAt(Split.HalfUp, 2, parts, 40000, 3);
  }
}
