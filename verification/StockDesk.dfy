/** The sales-order service, with its tables as fields that are updated in place. */
module StockDesk {
  import opened Outcomes
  import opened Stock

  class Service {
    const negative: map<string, bool>
    var orders: seq<Order>
    var reservations: seq<Reservation>
    var movements: seq<Movement>

    constructor (negative: map<string, bool>)
      ensures Snapshot() == State(negative, [], [], [])
    {
      this.negative := negative;
      orders, reservations, movements := [], [], [];
    }

    function Snapshot(): State
      reads this
    {
      State(negative, orders, reservations, movements)
    }

    /** `_on_hand`: the signed sum of the ledger. */
    method CountOnHand(item: string, warehouse: string) returns (total: int)
      ensures total == OnHand(movements, item, warehouse)
    {
      total := 0;
      for n := 0 to |movements|
        invariant total == OnHand(movements[..n], item, warehouse)
      {
        assert movements[..n + 1][..n] == movements[..n];
        var m := movements[n];
        if m.item == item && m.warehouse == warehouse {
          if m.direction.In? { total := total + m.quantity; } else { total := total - m.quantity; }
        }
        if m.item == item && m.direction.Transfer? && m.direction.destination == warehouse {
          total := total + m.quantity;
        }
      }
      assert movements[..|movements|] == movements;
    }

    method CountReserved(item: string, warehouse: string) returns (total: int)
      ensures total == Reserved(reservations, item, warehouse)
    {
      total := 0;
      for n := 0 to |reservations|
        invariant total == Reserved(reservations[..n], item, warehouse)
      {
        assert reservations[..n + 1][..n] == reservations[..n];
        var r := reservations[n];
        if r.item == item && r.warehouse == warehouse && r.status == Active { total := total + r.quantity; }
      }
      assert reservations[..|reservations|] == reservations;
    }

    method ReceiveStock(item: string, warehouse: string, quantity: int) returns (error: Option<Error>)
      modifies this`movements
      ensures Answer(error, Snapshot(), old(Receive(Snapshot(), item, warehouse, quantity)), old(Snapshot()))
    {
      if quantity <= 0 { return Some(BadQuantity); }
      if warehouse !in negative { return Some(NotFound); }
      movements := movements + [Movement(item, warehouse, quantity, In, None)];
      error := None;
    }

    method CreateDraftOrder(warehouse: string, lines: seq<(string, int)>) returns (error: Option<Error>)
      modifies this`orders
      ensures Answer(error, Snapshot(), old(CreateDraft(Snapshot(), warehouse, lines)), old(Snapshot()))
    {
      if lines == [] { return Some(NoLines); }
      if warehouse !in negative { return Some(NotFound); }
      var drafted: seq<Line> := [];
      for n := 0 to |lines|
        invariant unchanged(this) && drafted == DraftLines(lines)[..n]
        invariant forall k :: 0 <= k < n ==> lines[k].1 > 0
      {
        if lines[n].1 <= 0 { return Some(BadQuantity); }
        drafted := drafted + [Line(lines[n].0, lines[n].1, None)];
      }
      assert drafted == DraftLines(lines);
      orders := orders + [Order(warehouse, Draft, drafted)];
      error := None;
    }

    /** Every item of the order must be available in full before anything is reserved. */
    method CheckStock(o: nat) returns (enough: bool)
      requires o < |orders|
      ensures enough == Enough(Snapshot(), o)
    {
      hide OnHand, Reserved;
      var x := orders[o];
      for n := 0 to |x.lines|
        invariant forall k :: 0 <= k < n ==>
          Needed(x.lines, x.lines[k].item)
              <= OnHand(movements, x.lines[k].item, x.warehouse) - Reserved(reservations, x.lines[k].item, x.warehouse)
      {
        var item := x.lines[n].item;
        var needed := CountNeeded(x.lines, item);
        var physical := CountOnHand(item, x.warehouse);
        var held := CountReserved(item, x.warehouse);
        if needed > physical - held {
          assert x.lines[n] in x.lines;
          return false;
        }
      }
      enough := true;
    }

    method CountNeeded(lines: seq<Line>, item: string) returns (total: int)
      ensures total == Needed(lines, item)
    {
      total := 0;
      for n := 0 to |lines|
        invariant total == Needed(lines[..n], item)
      {
        assert lines[..n + 1][..n] == lines[..n];
        if lines[n].item == item { total := total + lines[n].quantity; }
      }
      assert lines[..|lines|] == lines;
    }

    /** `confirm`: one active reservation per line. */
    method ConfirmOrder(o: nat, now: int) returns (error: Option<Error>)
      modifies this`orders, this`reservations
      ensures Answer(error, Snapshot(), old(Confirm(Snapshot(), o, now)), old(Snapshot()))
    {
      if o >= |orders| || orders[o].warehouse !in negative { return Some(NotFound); }
      if orders[o].status != Draft { return Some(WrongState); }
      if orders[o].lines == [] { return Some(NoLines); }
      hide Enough;
      var enough := CheckStock(o);
      if !negative[orders[o].warehouse] && !enough { return Some(InsufficientStock); }
      ghost var before := Snapshot();
      var n := |orders[o].lines|;
      for k := 0 to n
        invariant movements == old(movements) && Snapshot() == ReserveLines(before, o, k, now)
      {
        var l := orders[o].lines[k];
        var id := |reservations|;
        reservations := reservations + [Reservation(l.item, orders[o].warehouse, l.quantity, Active, (o, k), now + 30)];
        orders := orders[o := orders[o].(lines := orders[o].lines[k := l.(reservation := Some(id))])];
      }
      orders := orders[o := orders[o].(status := Confirmed)];
      error := None;
    }

    /** `cancel`: the order's unexpired reservations are released. */
    method CancelOrder(o: nat, now: int) returns (error: Option<Error>)
      modifies this`orders, this`reservations
      ensures Answer(error, Snapshot(), old(Cancel(Snapshot(), o, now)), old(Snapshot()))
    {
      if o >= |orders| { return Some(NotFound); }
      if orders[o].status != Draft && orders[o].status != Confirmed { return Some(WrongState); }
      if orders[o].status == Confirmed {
        var released := reservations;
        for k := 0 to |reservations|
          invariant unchanged(this) && |released| == |reservations|
          invariant forall i :: 0 <= i < |released| ==>
                      released[i] == if i < k then Release(reservations[i], o, now) else reservations[i]
        {
          var r := released[k];
          if r.owner.0 == o && r.status == Active && r.expires > now {
            released := released[k := r.(status := Released)];
          }
        }
        assert released == ReleaseAll(reservations, o, now);
        reservations := released;
      }
      orders := orders[o := orders[o].(status := Cancelled)];
      error := None;
    }

    /** `fulfill`: every line turns its reservation into an outgoing movement, or nothing happens. */
    method FulfillOrder(o: nat) returns (error: Option<Error>)
      modifies this
      ensures Answer(error, Snapshot(), old(Fulfill(Snapshot(), o)), old(Snapshot()))
    {
      if o >= |orders| || orders[o].warehouse !in negative { return Some(NotFound); }
      if orders[o].status != Confirmed { return Some(WrongState); }
      hide FulfillLine;
      ghost var before := Snapshot();
      var savedReservations, savedMovements := reservations, movements;
      for k := 0 to |orders[o].lines|
        invariant orders == old(orders) && FulfillLines(before, o, k) == Ok(Snapshot())
      {
        error := FulfillOneOrderLine(o, k);
        if error.Some? {
          FirstFailure(before, o, k + 1, |orders[o].lines|);
          reservations, movements := savedReservations, savedMovements;
          return;
        }
      }
      orders := orders[o := orders[o].(status := Fulfilled)];
      error := None;
    }

    method FulfillOneOrderLine(o: nat, k: nat) returns (error: Option<Error>)
      requires o < |orders| && k < |orders[o].lines|
      modifies this`reservations, this`movements
      ensures Answer(error, Snapshot(), old(FulfillLine(Snapshot(), o, k)), old(Snapshot()))
    {
      var l := orders[o].lines[k];
      if l.reservation.None? { return Some(NoReservation); }
      var id := l.reservation.value;
      if id >= |reservations| || reservations[id].status != Active { return Some(NoReservation); }
      var r := reservations[id];
      var physical := CountOnHand(r.item, r.warehouse);
      if physical < r.quantity { return Some(NotPhysicallyAvailable); }
      if exists m :: m in movements && m.ref == Some((o, k)) { return Some(MovementExists); }
      movements := movements + [Movement(r.item, r.warehouse, r.quantity, Out, Some((o, k)))];
      reservations := reservations[id := r.(status := FulfilledReservation)];
      error := None;
    }
  }

  /** The new rows, or the error and the old rows. */
  predicate Answer(error: Option<Error>, after: State, r: Result<State, Error>, before: State) {
    match r
    case Ok(st) => error == None && after == st
    case Err(e) => error == Some(e) && after == before
  }

  lemma {:induction false} FirstFailure(st: State, o: nat, n: nat, l: nat)
    requires o < |st.orders| && n <= l <= |st.orders[o].lines| && FulfillLines(st, o, n).Err?
    ensures FulfillLines(st, o, l) == FulfillLines(st, o, n)
  {
    hide FulfillLine;
    if n < l { FirstFailure(st, o, n, l - 1); }
  }
}
