/** Where the stock is: over every run, what has arrived and not been shipped is on hand, and what is reserved is held
    by the orders, each for exactly its lines while it is confirmed. */
module StockBalance {
  import opened Outcomes
  import opened Stock
  import opened StockCalls

  // ---------------------------------------------------------------- accounts

  /** The accepted receipts of the run. */
  function Arrived(st: State, ops: seq<Op>, item: string, w: string): int {
    if ops == [] then 0
    else
      var init, last := ops[..|ops| - 1], ops[|ops| - 1];
      Arrived(st, init, item, w)
      + if last.OpReceive? && last.item == item && last.warehouse == w && Perform(Run(st, init), last).Ok? then
          last.quantity
        else 0
  }

  function ShippedBy(x: Order, item: string, w: string): int {
    if x.status == Fulfilled && x.warehouse == w then Needed(x.lines, item) else 0
  }

  /** The lines of the fulfilled orders. */
  function Shipped(orders: seq<Order>, item: string, w: string): int {
    if orders == [] then 0
    else Shipped(orders[..|orders| - 1], item, w) + ShippedBy(orders[|orders| - 1], item, w)
  }

  function HeldFor(r: Reservation, o: nat, item: string, w: string): int {
    if r.owner.0 == o then Held(r, item, w) else 0
  }

  /** What the order holds of the item. */
  function HeldBy(rs: seq<Reservation>, o: nat, item: string, w: string): int {
    if rs == [] then 0 else HeldBy(rs[..|rs| - 1], o, item, w) + HeldFor(rs[|rs| - 1], o, item, w)
  }

  /** What the first n orders hold. */
  function HeldByAll(rs: seq<Reservation>, n: nat, item: string, w: string): int {
    if n == 0 then 0 else HeldByAll(rs, n - 1, item, w) + HeldBy(rs, n - 1, item, w)
  }

  function Wanted(x: Order, item: string, w: string): int { if x.warehouse == w then Needed(x.lines, item) else 0 }

  /** A confirmed order holds its lines, a cancelled one at most that, and the others nothing. */
  predicate Accounted(st: State, o: nat, item: string, w: string)
    requires o < |st.orders|
  {
    var held := HeldBy(st.reservations, o, item, w);
    match st.orders[o].status
    case Confirmed => held == Wanted(st.orders[o], item, w)
    case Cancelled => 0 <= held <= Wanted(st.orders[o], item, w)
    case _ => held == 0
  }

  // ---------------------------------------------------------------- sums

  lemma NoNeeds(lines: seq<Line>, item: string)
    ensures Needed(lines[..0], item) == 0
  {
  }

  lemma NeedsMore(lines: seq<Line>, n: nat, item: string)
    requires n < |lines|
    ensures Needed(lines[..n + 1], item)
            == Needed(lines[..n], item) + if lines[n].item == item then lines[n].quantity else 0
  {
    assert lines[..n + 1][..n] == lines[..n];
  }

  lemma ShippedAdded(orders: seq<Order>, x: Order, item: string, w: string)
    ensures Shipped(orders + [x], item, w) == Shipped(orders, item, w) + ShippedBy(x, item, w)
  {
    assert (orders + [x])[..|orders|] == orders;
  }

  lemma {:induction false} ShippedUpdated(orders: seq<Order>, o: nat, x: Order, item: string, w: string)
    requires o < |orders|
    ensures Shipped(orders[o := x], item, w)
            == Shipped(orders, item, w) - ShippedBy(orders[o], item, w) + ShippedBy(x, item, w)
  {
    hide ShippedBy;
    var n := |orders| - 1;
    if o == n {
      assert orders[o := x][..n] == orders[..n];
    } else {
      assert orders[o := x][..n] == orders[..n][o := x];
      ShippedUpdated(orders[..n], o, x, item, w);
    }
  }

  lemma HeldAdded(rs: seq<Reservation>, r: Reservation, o: nat, item: string, w: string)
    ensures HeldBy(rs + [r], o, item, w) == HeldBy(rs, o, item, w) + HeldFor(r, o, item, w)
  {
    assert (rs + [r])[..|rs|] == rs;
  }

  lemma {:induction false} HeldUpdated(rs: seq<Reservation>, i: nat, r: Reservation, o: nat, item: string, w: string)
    requires i < |rs|
    ensures HeldBy(rs[i := r], o, item, w)
            == HeldBy(rs, o, item, w) - HeldFor(rs[i], o, item, w) + HeldFor(r, o, item, w)
  {
    hide HeldFor;
    var n := |rs| - 1;
    if i == n {
      assert rs[i := r][..n] == rs[..n];
    } else {
      assert rs[i := r][..n] == rs[..n][i := r];
      HeldUpdated(rs[..n], i, r, o, item, w);
    }
  }

  lemma {:induction false} HeldByAllAdded(rs: seq<Reservation>, r: Reservation, n: nat, item: string, w: string)
    ensures HeldByAll(rs + [r], n, item, w)
            == HeldByAll(rs, n, item, w) + if r.owner.0 < n then Held(r, item, w) else 0
  {
    hide Held;
    if n > 0 {
      HeldByAllAdded(rs, r, n - 1, item, w);
      HeldAdded(rs, r, n - 1, item, w);
    }
  }

  lemma {:induction false} NothingHeld(n: nat, item: string, w: string)
    ensures HeldByAll([], n, item, w) == 0
  {
    if n > 0 { NothingHeld(n - 1, item, w); }
  }

  /** Every active reservation is held by one of the orders. */
  lemma {:induction false} ReservedIsHeld(rs: seq<Reservation>, n: nat, item: string, w: string)
    requires forall r :: r in rs ==> r.owner.0 < n
    ensures Reserved(rs, item, w) == HeldByAll(rs, n, item, w)
  {
    if rs == [] {
      NothingHeld(n, item, w);
    } else {
      var k := |rs| - 1;
      assert rs == rs[..k] + [rs[k]];
      ReservedIsHeld(rs[..k], n, item, w);
      HeldByAllAdded(rs[..k], rs[k], n, item, w);
    }
  }

  // ---------------------------------------------------------------- what is on hand

  lemma {:induction false} LeavingStock(st: State, after: State, o: nat, gone: nat, n: nat, item: string, w: string)
    requires o < |st.orders| && n <= gone <= |st.orders[o].lines| && Leaving(st, after, o, gone)
    ensures |st.movements| + n <= |after.movements|
    ensures OnHand(after.movements[..|st.movements| + n], item, w)
            == OnHand(st.movements, item, w)
               - if st.orders[o].warehouse == w then Needed(st.orders[o].lines[..n], item) else 0
  {
    hide Leaving, OnHand, Needed;
    var lines, first := st.orders[o].lines, |st.movements|;
    LeftPrefix(st, after, o, gone, n);
    if n == 0 {
      NoNeeds(lines, item);
    } else {
      var l := lines[n - 1];
      LeftPrefix(st, after, o, gone, n - 1);
      LeavingStock(st, after, o, gone, n - 1, item, w);
      OnHandAdded(after.movements[..first + n - 1],
                  Movement(l.item, st.orders[o].warehouse, l.quantity, Out, Some((o, n - 1))), item, w);
      NeedsMore(lines, n - 1, item);
    }
  }

  lemma LeftPrefix(st: State, after: State, o: nat, gone: nat, n: nat)
    requires o < |st.orders| && n <= gone <= |st.orders[o].lines| && Leaving(st, after, o, gone)
    ensures |st.movements| + n <= |after.movements|
    ensures after.movements[..|st.movements| + n]
            == if n == 0 then st.movements
               else
                 var l := st.orders[o].lines[n - 1];
                 after.movements[..|st.movements| + n - 1]
                 + [Movement(l.item, st.orders[o].warehouse, l.quantity, Out, Some((o, n - 1)))]
  {
    hide OwnReservation;
  }

  lemma FulfilledStock(st: State, o: nat, item: string, w: string)
    requires Inv(st) && Fulfill(st, o).Ok?
    ensures o < |st.orders| && st.orders[o].status == Confirmed
    ensures Fulfill(st, o).value.orders == st.orders[o := st.orders[o].(status := Fulfilled)]
    ensures OnHand(Fulfill(st, o).value.movements, item, w)
            == OnHand(st.movements, item, w) - Wanted(st.orders[o], item, w)
  {
    FulfillsAs(st, o);
    var after, n := Fulfill(st, o).value.(orders := st.orders), |st.orders[o].lines|;
    LeavingStock(st, after, o, n, n, item, w);
    assert st.orders[o].lines[..n] == st.orders[o].lines;
    assert |after.movements| == |st.movements| + n;
    assert after.movements[..|st.movements| + n] == after.movements;
  }

  /** The first n lines can leave when the ledger has all that they need of their items. */
  ghost predicate OnHandFor(st: State, o: nat, n: nat)
    requires o < |st.orders| && n <= |st.orders[o].lines|
  {
    forall k :: 0 <= k < n ==>
      Needed(st.orders[o].lines[..n], st.orders[o].lines[k].item)
      <= OnHand(st.movements, st.orders[o].lines[k].item, st.orders[o].warehouse)
  }

  lemma OneMoreLine(st: State, o: nat, n: nat)
    requires o < |st.orders| && n < |st.orders[o].lines| && st.orders[o].lines[n].quantity > 0
    ensures var lines, w := st.orders[o].lines, st.orders[o].warehouse;
            OnHandFor(st, o, n + 1) <==>
              OnHandFor(st, o, n)
              && Needed(lines[..n], lines[n].item) + lines[n].quantity <= OnHand(st.movements, lines[n].item, w)
  {
    var lines := st.orders[o].lines;
    hide OnHand, Needed;
    forall item
      ensures Needed(lines[..n + 1], item)
              == Needed(lines[..n], item) + if lines[n].item == item then lines[n].quantity else 0
    {
      NeedsMore(lines, n, item);
    }
    if OnHandFor(st, o, n + 1) {
      assert Needed(lines[..n + 1], lines[n].item) <= OnHand(st.movements, lines[n].item, st.orders[o].warehouse);
    }
  }

  lemma LineOnHand(st: State, before: State, o: nat, n: nat)
    requires o < |st.orders| && n < |st.orders[o].lines| && Leaving(st, before, o, n) && Halfway(before, o, n)
    ensures FulfillLine(before, o, n).Ok? <==>
              var l := st.orders[o].lines[n];
              Needed(st.orders[o].lines[..n], l.item) + l.quantity
              <= OnHand(st.movements, l.item, st.orders[o].warehouse)
  {
    var l := st.orders[o].lines[n];
    LeavingStock(st, before, o, n, n, l.item, st.orders[o].warehouse);
    assert before.movements[..|st.movements| + n] == before.movements;
    assert LineHeld(before, o, n);
    hide OnHand, Needed, Covered;
  }

  lemma {:induction false} LinesOnHand(st: State, o: nat, n: nat)
    requires o < |st.orders| && n <= |st.orders[o].lines| && Halfway(st, o, 0)
    requires forall l :: l in st.orders[o].lines ==> l.quantity > 0
    ensures FulfillLines(st, o, n).Ok? <==> OnHandFor(st, o, n)
  {
    hide Halfway, FulfillLine, Leaving, OnHand, Needed;
    if n > 0 {
      LinesOnHand(st, o, n - 1);
      OneMoreLine(st, o, n - 1);
      hide OnHandFor;
      if FulfillLines(st, o, n - 1).Ok? {
        FulfillSomeLines(st, o, n - 1);
        LinesLeave(st, o, n - 1);
        LineOnHand(st, FulfillLines(st, o, n - 1).value, o, n - 1);
      }
    }
  }

  /** Main result: a confirmed order is fulfilled exactly when the ledger of its warehouse has all that the order needs
      of its items, whoever else has reserved it. */
  lemma FulfillIff(st: State, o: nat)
    requires Inv(st)
    ensures Fulfill(st, o).Ok? <==>
              && o < |st.orders| && st.orders[o].warehouse in st.negative && st.orders[o].status == Confirmed
              && forall l :: l in st.orders[o].lines ==>
                   Needed(st.orders[o].lines, l.item) <= OnHand(st.movements, l.item, st.orders[o].warehouse)
  {
    if o < |st.orders| && st.orders[o].status == Confirmed {
      var lines := st.orders[o].lines;
      assert OrderInv(st, o);
      ConfirmedIsReady(st, o);
      LinesOnHand(st, o, |lines|);
      assert lines[..|lines|] == lines;
      hide Inv, Halfway, FulfillLines, OnHand, Needed;
      assert forall k :: 0 <= k < |lines| ==> lines[k] in lines;
    }
  }

  lemma StepBalance(st: State, op: Op, item: string, w: string)
    requires Inv(st)
    ensures OnHand(Step(st, op).movements, item, w) + Shipped(Step(st, op).orders, item, w)
            == OnHand(st.movements, item, w) + Shipped(st.orders, item, w)
               + if op.OpReceive? && op.item == item && op.warehouse == w && Perform(st, op).Ok? then op.quantity else 0
  {
    hide Inv, OnHand, Shipped, Receive, CreateDraft, Confirm, Cancel, Fulfill;
    if Perform(st, op).Ok? {
      match op
      case OpReceive(i, v, quantity) => ReceivedStock(st, i, v, quantity, item, w);
      case OpDraft(v, lines) => DraftStock(st, v, lines, item, w);
      case OpConfirm(o, now) => ConfirmedStock(st, o, now, item, w);
      case OpCancel(o, now) => CancelledStock(st, o, now, item, w);
      case OpFulfill(o) =>
        FulfilledStock(st, o, item, w);
        ShippedUpdated(st.orders, o, st.orders[o].(status := Fulfilled), item, w);
        hide Needed;
    }
  }

  lemma ReceivedStock(st: State, i: string, v: string, quantity: int, item: string, w: string)
    requires Receive(st, i, v, quantity).Ok?
    ensures var after := Receive(st, i, v, quantity).value;
            && after.orders == st.orders
            && OnHand(after.movements, item, w)
               == OnHand(st.movements, item, w) + if i == item && v == w then quantity else 0
  {
    OnHandAdded(st.movements, Movement(i, v, quantity, In, None), item, w);
    hide OnHand;
  }

  lemma DraftStock(st: State, v: string, lines: seq<(string, int)>, item: string, w: string)
    requires CreateDraft(st, v, lines).Ok?
    ensures var after := CreateDraft(st, v, lines).value;
            after.movements == st.movements && Shipped(after.orders, item, w) == Shipped(st.orders, item, w)
  {
    ShippedAdded(st.orders, Order(v, Draft, DraftLines(lines)), item, w);
    hide Shipped;
  }

  lemma ConfirmedStock(st: State, o: nat, now: int, item: string, w: string)
    requires Confirm(st, o, now).Ok?
    ensures var after := Confirm(st, o, now).value;
            after.movements == st.movements && Shipped(after.orders, item, w) == Shipped(st.orders, item, w)
  {
    ConfirmsAs(st, o, now);
    var after := Confirm(st, o, now).value;
    assert st.orders[o].status == Draft by { hide Enough, ReserveLines; }
    hide Confirm;
    assert after.orders == st.orders[o := after.orders[o]];
    ShippedUpdated(st.orders, o, after.orders[o], item, w);
    hide Shipped;
  }

  lemma CancelledStock(st: State, o: nat, now: int, item: string, w: string)
    requires Cancel(st, o, now).Ok?
    ensures var after := Cancel(st, o, now).value;
            after.movements == st.movements && Shipped(after.orders, item, w) == Shipped(st.orders, item, w)
  {
    CancelsAs(st, o, now);
    hide Cancel;
    ShippedUpdated(st.orders, o, st.orders[o].(status := Cancelled), item, w);
    hide Shipped;
  }

  /** Main result, over every run: the stock of the movement ledger is what has arrived less the lines of the fulfilled
      orders, item by item and warehouse by warehouse. */
  lemma {:induction false} StockAddsUp(st: State, ops: seq<Op>, item: string, w: string)
    requires Start(st)
    ensures OnHand(Run(st, ops).movements, item, w)
            == Arrived(st, ops, item, w) - Shipped(Run(st, ops).orders, item, w)
  {
    hide Inv, Step, Perform;
    if ops != [] {
      StockAddsUp(st, ops[..|ops| - 1], item, w);
      RunKeepsInv(st, ops[..|ops| - 1]);
      StepBalance(Run(st, ops[..|ops| - 1]), ops[|ops| - 1], item, w);
    }
  }

  // ---------------------------------------------------------------- what is reserved

  /** Reserving the first n lines gives the order what they need. */
  lemma {:induction false} ReservingHolds(st: State, after: State, o: nat, n: nat, now: int, p: nat, item: string,
                                          w: string)
    requires o < |st.orders| && Reserving(st, after, o, |st.orders[o].lines|, now) && n <= |st.orders[o].lines|
    ensures |st.reservations| + n <= |after.reservations|
    ensures HeldBy(after.reservations[..|st.reservations| + n], p, item, w)
            == HeldBy(st.reservations, p, item, w)
               + if p == o && st.orders[o].warehouse == w then Needed(st.orders[o].lines[..n], item) else 0
  {
    hide Reserving, HeldBy, Needed;
    var lines, first := st.orders[o].lines, |st.reservations|;
    ReservedPrefix(st, after, o, n, now);
    if n == 0 {
      NoNeeds(lines, item);
    } else {
      var l := lines[n - 1];
      ReservedPrefix(st, after, o, n - 1, now);
      ReservingHolds(st, after, o, n - 1, now, p, item, w);
      HeldAdded(after.reservations[..first + n - 1],
                Reservation(l.item, st.orders[o].warehouse, l.quantity, Active, (o, n - 1), now + 30), p, item, w);
      NeedsMore(lines, n - 1, item);
    }
  }

  lemma ReservedPrefix(st: State, after: State, o: nat, n: nat, now: int)
    requires o < |st.orders| && Reserving(st, after, o, |st.orders[o].lines|, now) && n <= |st.orders[o].lines|
    ensures |st.reservations| + n <= |after.reservations|
    ensures after.reservations[..|st.reservations| + n]
            == if n == 0 then st.reservations
               else
                 var l := st.orders[o].lines[n - 1];
                 after.reservations[..|st.reservations| + n - 1]
                 + [Reservation(l.item, st.orders[o].warehouse, l.quantity, Active, (o, n - 1), now + 30)]
  {
  }

  lemma ConfirmedHolds(st: State, o: nat, now: int, p: nat, item: string, w: string)
    requires Confirm(st, o, now).Ok? && p < |st.orders| && Accounted(st, p, item, w)
    ensures var after := Confirm(st, o, now).value; p < |after.orders| && Accounted(after, p, item, w)
  {
    ConfirmsAs(st, o, now);
    assert st.orders[o].status == Draft by { hide Enough, ReserveLines; }
    hide Confirm;
    var after, n := Confirm(st, o, now).value, |st.orders[o].lines|;
    var open := after.(orders := after.orders[o := after.orders[o].(status := Draft)]);
    ReservingHolds(st, open, o, n, now, p, item, w);
    assert st.orders[o].lines[..n] == st.orders[o].lines;
    assert open.reservations[..|st.reservations| + n] == after.reservations;
    SameNeeds(st.orders[o].lines, after.orders[o].lines, item);
  }

  lemma {:induction false} SameNeeds(lines: seq<Line>, after: seq<Line>, item: string)
    requires |lines| == |after|
    requires forall k :: 0 <= k < |lines| ==>
               lines[k].item == after[k].item && lines[k].quantity == after[k].quantity
    ensures Needed(lines, item) == Needed(after, item)
  {
    if lines != [] { SameNeeds(lines[..|lines| - 1], after[..|after| - 1], item); }
  }

  /** Releasing takes from the order alone. */
  lemma {:induction false} ReleasedHolds(rs: seq<Reservation>, o: nat, now: int, p: nat, item: string, w: string)
    requires forall r :: r in rs ==> r.quantity > 0
    ensures 0 <= HeldBy(ReleaseAll(rs, o, now), p, item, w) <= HeldBy(rs, p, item, w)
    ensures p != o ==> HeldBy(ReleaseAll(rs, o, now), p, item, w) == HeldBy(rs, p, item, w)
  {
    if rs != [] {
      var n := |rs| - 1;
      assert rs[n] in rs;
      assert ReleaseAll(rs, o, now)[..n] == ReleaseAll(rs[..n], o, now);
      ReleasedHolds(rs[..n], o, now, p, item, w);
    }
  }

  lemma {:induction false} HeldNonNegative(rs: seq<Reservation>, p: nat, item: string, w: string)
    requires forall r :: r in rs ==> r.quantity > 0
    ensures HeldBy(rs, p, item, w) >= 0
  {
    if rs != [] {
      assert rs[|rs| - 1] in rs;
      HeldNonNegative(rs[..|rs| - 1], p, item, w);
    }
  }

  lemma {:induction false} NeedsNonNegative(lines: seq<Line>, item: string)
    requires forall l :: l in lines ==> l.quantity > 0
    ensures Needed(lines, item) >= 0
  {
    if lines != [] {
      assert lines[|lines| - 1] in lines;
      NeedsNonNegative(lines[..|lines| - 1], item);
    }
  }

  lemma CancelledHolds(st: State, o: nat, now: int, p: nat, item: string, w: string)
    requires Inv(st) && Cancel(st, o, now).Ok? && p < |st.orders| && Accounted(st, p, item, w)
    ensures var after := Cancel(st, o, now).value; p < |after.orders| && Accounted(after, p, item, w)
  {
    assert OrderInv(st, p);
    NeedsNonNegative(st.orders[p].lines, item);
    ReleasedHolds(st.reservations, o, now, p, item, w);
    hide Inv, HeldBy, Needed;
  }

  lemma {:induction false} LeavingHolds(st: State, o: nat, n: nat, p: nat, item: string, w: string)
    requires o < |st.orders| && n <= |st.orders[o].lines| && Halfway(st, o, 0) && FulfillLines(st, o, n).Ok?
    ensures HeldBy(FulfillLines(st, o, n).value.reservations, p, item, w)
            == HeldBy(st.reservations, p, item, w)
               - if p == o && st.orders[o].warehouse == w then Needed(st.orders[o].lines[..n], item) else 0
  {
    hide Halfway, LineHeld, FulfillLine, HeldBy;
    if n > 0 {
      LeavingHolds(st, o, n - 1, p, item, w);
      FulfillSomeLines(st, o, n - 1);
      LineGone(FulfillLines(st, o, n - 1).value, o, n - 1, p, item, w);
      assert st.orders[o].lines[..n][..n - 1] == st.orders[o].lines[..n - 1];
    }
  }

  lemma LineGone(st: State, o: nat, n: nat, p: nat, item: string, w: string)
    requires o < |st.orders| && n < |st.orders[o].lines| && Halfway(st, o, n) && FulfillLine(st, o, n).Ok?
    ensures var l := st.orders[o].lines[n];
            HeldBy(FulfillLine(st, o, n).value.reservations, p, item, w)
            == HeldBy(st.reservations, p, item, w)
               - if p == o && st.orders[o].warehouse == w && l.item == item then l.quantity else 0
  {
    assert LineHeld(st, o, n);
    var i := st.orders[o].lines[n].reservation.value;
    HeldUpdated(st.reservations, i, st.reservations[i].(status := FulfilledReservation), p, item, w);
    hide HeldBy, Covered;
  }

  lemma FulfilledHolds(st: State, o: nat, p: nat, item: string, w: string)
    requires Inv(st) && Fulfill(st, o).Ok? && p < |st.orders| && Accounted(st, p, item, w)
    ensures var after := Fulfill(st, o).value; p < |after.orders| && Accounted(after, p, item, w)
  {
    ConfirmedIsReady(st, o);
    var n := |st.orders[o].lines|;
    LeavingHolds(st, o, n, p, item, w);
    assert st.orders[o].lines[..n] == st.orders[o].lines;
    hide Inv, Halfway, FulfillLines, HeldBy, Needed;
  }

  lemma StepKeepsAccounts(st: State, op: Op, p: nat, item: string, w: string)
    requires Inv(st) && p < |Step(st, op).orders| && (p < |st.orders| ==> Accounted(st, p, item, w))
    ensures Accounted(Step(st, op), p, item, w)
  {
    hide Inv, Accounted, Receive, CreateDraft, Confirm, Cancel, Fulfill;
    if Perform(st, op).Ok? {
      match op
      case OpReceive(i, v, quantity) => OrdersKept(st, op); ReceivedHolds(st, i, v, quantity, p, item, w);
      case OpDraft(v, lines) => DraftHolds(st, v, lines, p, item, w);
      case OpConfirm(o, now) => OrdersKept(st, op); ConfirmedHolds(st, o, now, p, item, w);
      case OpCancel(o, now) => OrdersKept(st, op); CancelledHolds(st, o, now, p, item, w);
      case OpFulfill(o) => OrdersKept(st, op); FulfilledHolds(st, o, p, item, w);
    }
  }

  lemma OrdersKept(st: State, op: Op)
    requires !op.OpDraft?
    ensures |Step(st, op).orders| == |st.orders|
  {
    hide Enough, FulfillLine;
  }

  lemma ReceivedHolds(st: State, i: string, v: string, quantity: int, p: nat, item: string, w: string)
    requires Receive(st, i, v, quantity).Ok? && p < |st.orders| && Accounted(st, p, item, w)
    ensures var after := Receive(st, i, v, quantity).value; p < |after.orders| && Accounted(after, p, item, w)
  {
    hide HeldBy, Needed;
  }

  lemma {:induction false} NotYetHeld(rs: seq<Reservation>, p: nat, item: string, w: string)
    requires forall r :: r in rs ==> r.owner.0 != p
    ensures HeldBy(rs, p, item, w) == 0
  {
    if rs != [] {
      assert rs[|rs| - 1] in rs;
      NotYetHeld(rs[..|rs| - 1], p, item, w);
    }
  }

  lemma DraftHolds(st: State, v: string, lines: seq<(string, int)>, p: nat, item: string, w: string)
    requires Inv(st) && CreateDraft(st, v, lines).Ok? && p < |CreateDraft(st, v, lines).value.orders|
    requires p < |st.orders| ==> Accounted(st, p, item, w)
    ensures Accounted(CreateDraft(st, v, lines).value, p, item, w)
  {
    if p == |st.orders| { NotYetHeld(st.reservations, p, item, w); }
    hide Inv, HeldBy, Needed;
  }

  /** Main result, over every run: what is reserved is held by the orders, a confirmed one holding exactly its lines, a
      cancelled one at most that, and drafts and fulfilled orders nothing. */
  lemma {:induction false} OrdersHoldTheirLines(st: State, ops: seq<Op>, item: string, w: string)
    requires Start(st)
    ensures var now := Run(st, ops);
            && Reserved(now.reservations, item, w) == HeldByAll(now.reservations, |now.orders|, item, w)
            && forall o :: 0 <= o < |now.orders| ==> Accounted(now, o, item, w)
  {
    hide Accounted, Step;
    RunKeepsInv(st, ops);
    var now := Run(st, ops);
    ReservedIsHeld(now.reservations, |now.orders|, item, w);
    if ops != [] {
      var before := Run(st, ops[..|ops| - 1]);
      OrdersHoldTheirLines(st, ops[..|ops| - 1], item, w);
      RunKeepsInv(st, ops[..|ops| - 1]);
      hide Inv;
      forall o | 0 <= o < |now.orders| ensures Accounted(now, o, item, w) {
        StepKeepsAccounts(before, ops[|ops| - 1], o, item, w);
      }
    }
  }
}
