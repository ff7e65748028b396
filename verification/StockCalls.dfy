/** What confirming, cancelling and fulfilling an order writes, and what of the stock every order accounts for. */
module StockCalls {
  import opened Outcomes
  import opened Stock

  // ---------------------------------------------------------------- receipts and drafts

  /** A receipt of a known warehouse adds its quantity to the stock of the item there, and to no other. */
  lemma ReceiveIff(st: State, item: string, w: string, quantity: int)
    ensures var after := Receive(st, item, w, quantity);
            && (after.Ok? <==> quantity > 0 && w in st.negative)
            && (after.Ok? ==>
                  && after.value == st.(movements := after.value.movements)
                  && forall i: string, v: string ::
                       OnHand(after.value.movements, i, v)
                       == OnHand(st.movements, i, v) + if i == item && v == w then quantity else 0)
  {
    forall i: string, v: string
      ensures OnHand(st.movements + [Movement(item, w, quantity, In, None)], i, v)
              == OnHand(st.movements, i, v) + if i == item && v == w then quantity else 0
    {
      OnHandAdded(st.movements, Movement(item, w, quantity, In, None), i, v);
    }
    hide OnHand;
  }

  /** A draft has the given lines, in order, and reserves nothing. */
  lemma DraftIff(st: State, w: string, lines: seq<(string, int)>)
    ensures var after := CreateDraft(st, w, lines);
            && (after.Ok? <==>
                  lines != [] && w in st.negative && forall k :: 0 <= k < |lines| ==> lines[k].1 > 0)
            && (after.Ok? ==>
                  && |after.value.orders| == |st.orders| + 1
                  && var x := after.value.orders[|st.orders|];
                     && after.value == st.(orders := st.orders + [x])
                     && x.warehouse == w && x.status == Draft && |x.lines| == |lines|
                     && forall k :: 0 <= k < |lines| ==>
                          x.lines[k] == Line(lines[k].0, lines[k].1, None))
  {
    assert forall k :: 0 <= k < |lines| ==> lines[k] in lines;
  }

  // ---------------------------------------------------------------- confirming

  /** The warehouse has all that the order needs of the item, reservations set aside. */
  predicate Available(st: State, o: nat, item: string)
    requires o < |st.orders|
  {
    var w := st.orders[o].warehouse;
    Needed(st.orders[o].lines, item) <= OnHand(st.movements, item, w) - Reserved(st.reservations, item, w)
  }

  /** A draft of a known warehouse with lines is confirmed exactly when the warehouse may go negative or has enough of
      every item. */
  lemma ConfirmIff(st: State, o: nat, now: int)
    requires Inv(st)
    ensures Confirm(st, o, now).Ok? <==>
              && o < |st.orders| && st.orders[o].status == Draft && st.orders[o].lines != []
              && st.orders[o].warehouse in st.negative
              && (st.negative[st.orders[o].warehouse] || forall item :: Available(st, o, item))
  {
    hide ReserveLines, Inv, Enough, Available;
    if o < |st.orders| && st.orders[o].warehouse in st.negative && !st.negative[st.orders[o].warehouse] {
      EnoughIff(st, o);
    }
  }

  lemma EnoughIff(st: State, o: nat)
    requires Inv(st) && o < |st.orders|
    requires st.orders[o].warehouse in st.negative && !st.negative[st.orders[o].warehouse]
    ensures Enough(st, o) <==> forall item :: Available(st, o, item)
  {
    hide OrderInv;
    if Enough(st, o) {
      forall item ensures Available(st, o, item) { EnoughForAll(st, o, item); }
    } else {
      var l :| l in st.orders[o].lines && !Available(st, o, l.item);
    }
  }

  /** The first n lines of the order with their reservations, which are the newest ones, in order. */
  ghost predicate Reserving(st: State, after: State, o: nat, n: nat, now: int)
    requires o < |st.orders| && n <= |st.orders[o].lines|
  {
    var x, first := st.orders[o], |st.reservations|;
    && after.negative == st.negative && after.movements == st.movements && |after.orders| == |st.orders|
    && (forall p :: 0 <= p < |st.orders| && p != o ==> after.orders[p] == st.orders[p])
    && after.orders[o] == x.(lines := after.orders[o].lines) && |after.orders[o].lines| == |x.lines|
    && (forall k :: 0 <= k < |x.lines| ==>
          after.orders[o].lines[k] == if k < n then x.lines[k].(reservation := Some(first + k)) else x.lines[k])
    && |after.reservations| == first + n
    && (forall i :: 0 <= i < first ==> after.reservations[i] == st.reservations[i])
    && (forall k :: 0 <= k < n ==>
          after.reservations[first + k]
          == Reservation(x.lines[k].item, x.warehouse, x.lines[k].quantity, Active, (o, k), now + 30))
  }

  lemma {:induction false} ReservesLines(st: State, o: nat, n: nat, now: int)
    requires o < |st.orders| && n <= |st.orders[o].lines|
    ensures Reserving(st, ReserveLines(st, o, n, now), o, n, now)
  {
    hide Reserving, ReserveLine;
    if n == 0 {
      NoneReserved(st, o, now);
    } else {
      ReservesLines(st, o, n - 1, now);
      LineReserves(st, ReserveLines(st, o, n - 1, now), o, n - 1, now);
    }
  }

  lemma NoneReserved(st: State, o: nat, now: int)
    requires o < |st.orders|
    ensures Reserving(st, st, o, 0, now)
  {
  }

  lemma LineReserves(st: State, before: State, o: nat, n: nat, now: int)
    requires o < |st.orders| && n < |st.orders[o].lines| && Reserving(st, before, o, n, now)
    ensures Reserving(st, ReserveLine(before, o, n, now), o, n + 1, now)
  {
  }

  /** Main result: confirming reserves every line for 30 units of time, in order, and changes nothing else. */
  lemma ConfirmsAs(st: State, o: nat, now: int)
    requires Confirm(st, o, now).Ok?
    ensures var after := Confirm(st, o, now).value;
            && o < |st.orders| && |after.orders| == |st.orders| && after.orders[o].status == Confirmed
            && Reserving(st, after.(orders := after.orders[o := after.orders[o].(status := Draft)]), o,
                         |st.orders[o].lines|, now)
  {
    hide Enough, ReserveLines;
    var n := |st.orders[o].lines|;
    ReservesLines(st, o, n, now);
    var done := ReserveLines(st, o, n, now);
    assert done.orders == done.orders[o := done.orders[o]];
    hide Reserving;
    var after := Confirm(st, o, now).value;
    StatusBack(done, o);
    assert done.orders[o].status == Draft by { DoneIsDraft(st, done, o, n, now); }
  }

  lemma DoneIsDraft(st: State, after: State, o: nat, n: nat, now: int)
    requires o < |st.orders| && n <= |st.orders[o].lines| && Reserving(st, after, o, n, now)
    requires st.orders[o].status == Draft
    ensures |after.orders| == |st.orders| && after.orders[o].status == Draft
  {
  }

  lemma StatusBack(st: State, o: nat)
    requires o < |st.orders| && st.orders[o].status == Draft
    ensures var after := SetStatus(st, o, Confirmed);
            after.(orders := after.orders[o := after.orders[o].(status := Draft)]) == st
  {
  }

  // ---------------------------------------------------------------- cancelling

  /** Main result: a draft or a confirmed order is cancelled; of a confirmed one exactly the active reservations that
      have not expired are released. */
  lemma CancelsAs(st: State, o: nat, now: int)
    ensures Cancel(st, o, now).Ok? <==>
              o < |st.orders| && (st.orders[o].status == Draft || st.orders[o].status == Confirmed)
    ensures Cancel(st, o, now).Ok? ==>
              var after := Cancel(st, o, now).value;
              && after == st.(orders := st.orders[o := st.orders[o].(status := Cancelled)],
                              reservations := after.reservations)
              && |after.reservations| == |st.reservations|
              && forall i :: 0 <= i < |st.reservations| ==>
                   var r := st.reservations[i];
                   after.reservations[i] ==
                     if st.orders[o].status == Confirmed && r.owner.0 == o && r.status == Active && r.expires > now then
                       r.(status := Released)
                     else r
  {
  }

  // ---------------------------------------------------------------- fulfilling

  /** The first n lines have left the warehouse: a movement each, in order, and their reservations are fulfilled. */
  ghost predicate Leaving(st: State, after: State, o: nat, n: nat)
    requires o < |st.orders| && n <= |st.orders[o].lines|
  {
    var x, first := st.orders[o], |st.movements|;
    && after.orders == st.orders && after.negative == st.negative && |after.movements| == first + n
    && (forall j :: 0 <= j < first ==> after.movements[j] == st.movements[j])
    && (forall k :: 0 <= k < n ==>
          after.movements[first + k]
          == Movement(x.lines[k].item, x.warehouse, x.lines[k].quantity, Out, Some((o, k))))
    && |after.reservations| == |st.reservations|
    && forall i :: 0 <= i < |st.reservations| ==>
         after.reservations[i] ==
           if OwnReservation(x.lines, n, i) then st.reservations[i].(status := FulfilledReservation)
           else st.reservations[i]
  }

  predicate OwnReservation(lines: seq<Line>, n: nat, i: nat)
    requires n <= |lines|
  {
    exists k :: 0 <= k < n && lines[k].reservation == Some(i)
  }

  lemma {:induction false} LinesLeave(st: State, o: nat, n: nat)
    requires o < |st.orders| && n <= |st.orders[o].lines| && Halfway(st, o, 0) && FulfillLines(st, o, n).Ok?
    ensures Leaving(st, FulfillLines(st, o, n).value, o, n)
  {
    hide Halfway, LineHeld, FulfillLine;
    if n > 0 {
      LinesLeave(st, o, n - 1);
      FulfillSomeLines(st, o, n - 1);
      LineLeaves(st, FulfillLines(st, o, n - 1).value, o, n - 1);
    }
  }

  lemma LineLeaves(st: State, before: State, o: nat, n: nat)
    requires o < |st.orders| && n < |st.orders[o].lines| && Leaving(st, before, o, n) && Halfway(before, o, n)
    requires Halfway(st, o, 0) && FulfillLine(before, o, n).Ok?
    ensures Leaving(st, FulfillLine(before, o, n).value, o, n + 1)
  {
    assert LineHeld(before, o, n) && LineHeld(st, o, n);
    hide Covered;
    var lines, i := st.orders[o].lines, st.orders[o].lines[n].reservation.value;
    forall j | 0 <= j < |st.reservations|
      ensures OwnReservation(lines, n + 1, j) <==> OwnReservation(lines, n, j) || j == i
    {
      assert lines[n].reservation == Some(i);
    }
  }

  /** Main result: fulfilling a confirmed order takes exactly its lines out of its warehouse, one movement a line, and
      marks their reservations. */
  lemma FulfillsAs(st: State, o: nat)
    requires Inv(st) && Fulfill(st, o).Ok?
    ensures o < |st.orders| && st.orders[o].status == Confirmed
    ensures Leaving(st, Fulfill(st, o).value.(orders := st.orders), o, |st.orders[o].lines|)
    ensures Fulfill(st, o).value.orders == st.orders[o := st.orders[o].(status := Fulfilled)]
  {
    ConfirmedIsReady(st, o);
    LinesLeave(st, o, |st.orders[o].lines|);
    hide Inv, Halfway, Leaving, FulfillLines;
    var done := FulfillLines(st, o, |st.orders[o].lines|).value;
    assert done == Fulfill(st, o).value.(orders := st.orders);
  }
}
