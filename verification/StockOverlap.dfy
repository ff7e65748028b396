/** Calls on one sales order that overlap: confirming, fulfilling and cancelling read the order before they lock
    anything, so each is two steps, and the second writes whatever has become of the order. */
module StockOverlap {
  import opened Outcomes
  import opened Stock

  /** What a call has read: that it may go on, and for a cancellation the reservations that it will release. */
  datatype Call = Confirming(o: nat) | Fulfilling(o: nat) | Cancelling(o: nat, held: set<nat>)

  datatype Attempt = Attempt(call: Call, open: bool)

  datatype Desk = Desk(st: State, attempts: seq<Attempt>)

  // ---------------------------------------------------------------- second halves

  /** The order has had reservations: their references are unique, so it cannot get others. */
  predicate HasOwner(reservations: seq<Reservation>, o: nat) {
    exists r :: r in reservations && r.owner.0 == o
  }

  /** `confirm` once it holds the warehouse. */
  function ConfirmLate(st: State, o: nat, now: int): Result<State, Error> {
    if o >= |st.orders| || st.orders[o].warehouse !in st.negative then Err(NotFound)
    else if st.orders[o].lines == [] then Err(NoLines)
    else if !st.negative[st.orders[o].warehouse] && !Enough(st, o) then Err(InsufficientStock)
    else if HasOwner(st.reservations, o) then Err(WrongState)
    else Ok(SetStatus(ReserveLines(st, o, |st.orders[o].lines|, now), o, Confirmed))
  }

  /** `fulfill` once it holds the warehouse. */
  function FulfillLate(st: State, o: nat): Result<State, Error> {
    if o >= |st.orders| || st.orders[o].warehouse !in st.negative then Err(NotFound)
    else
      var done :- FulfillLines(st, o, |st.orders[o].lines|);
      Ok(SetStatus(done, o, Fulfilled))
  }

  /** The reservations that a cancellation finds to release. */
  function Releasable(st: State, o: nat, now: int): set<nat>
    requires o < |st.orders|
  {
    if st.orders[o].status != Confirmed then {}
    else
      set i: nat | i < |st.reservations| && st.reservations[i].owner.0 == o && st.reservations[i].status == Active
                 && st.reservations[i].expires > now
  }

  function ReleaseThose(rs: seq<Reservation>, held: set<nat>): (r: seq<Reservation>)
    ensures |r| == |rs|
    ensures forall i :: 0 <= i < |r| ==> r[i] == if i in held then rs[i].(status := Released) else rs[i]
  {
    seq(|rs|, i requires 0 <= i < |rs| => if i in held then rs[i].(status := Released) else rs[i])
  }

  /** `cancel` writes what it has read, and the order. */
  function CancelLate(st: State, o: nat, held: set<nat>): State {
    if o < |st.orders| then SetStatus(st.(reservations := ReleaseThose(st.reservations, held)), o, Cancelled) else st
  }

  function Finish(st: State, c: Call, now: int): State {
    match c
    case Confirming(o) => Or(st, ConfirmLate(st, o, now))
    case Fulfilling(o) => Or(st, FulfillLate(st, o))
    case Cancelling(o, held) => CancelLate(st, o, held)
  }

  function Or(st: State, r: Result<State, Error>): State {
    match r
    case Ok(after) => after
    case Err(_) => st
  }

  // ---------------------------------------------------------------- events

  datatype Event =
    | EvReceive(item: string, warehouse: string, quantity: int)
    | EvDraft(warehouse: string, lines: seq<(string, int)>)
    | EvReadConfirm(o: nat)
    | EvReadFulfill(o: nat)
    | EvReadCancel(o: nat, now: int)
    | EvFinish(a: nat, now: int)
    | EvDrop(a: nat)

  predicate IsOpen(d: Desk, a: nat) { a < |d.attempts| && d.attempts[a].open }

  function Open(d: Desk, call: Call): Desk { d.(attempts := d.attempts + [Attempt(call, true)]) }

  function End(d: Desk, a: nat): Desk {
    if a < |d.attempts| then d.(attempts := d.attempts[a := d.attempts[a].(open := false)]) else d
  }

  predicate Reads(st: State, o: nat, status: OrderStatus) { o < |st.orders| && st.orders[o].status == status }

  function Next(d: Desk, e: Event): Desk {
    match e
    case EvReceive(item, warehouse, quantity) => d.(st := Or(d.st, Receive(d.st, item, warehouse, quantity)))
    case EvDraft(warehouse, lines) => d.(st := Or(d.st, CreateDraft(d.st, warehouse, lines)))
    case EvReadConfirm(o) => if Reads(d.st, o, Draft) then Open(d, Confirming(o)) else d
    case EvReadFulfill(o) => if Reads(d.st, o, Confirmed) then Open(d, Fulfilling(o)) else d
    case EvReadCancel(o, now) =>
      if Reads(d.st, o, Draft) || Reads(d.st, o, Confirmed) then Open(d, Cancelling(o, Releasable(d.st, o, now))) else d
    case EvFinish(a, now) => if IsOpen(d, a) then End(d.(st := Finish(d.st, d.attempts[a].call, now)), a) else d
    case EvDrop(a) => End(d, a)
  }

  function RunAll(d: Desk, events: seq<Event>): Desk {
    if events == [] then d else Next(RunAll(d, events[..|events| - 1]), events[|events| - 1])
  }

  // ---------------------------------------------------------------- uninterrupted calls

  /** Both halves with nothing in between are the whole call; a draft that is confirmed has had no reservation. */
  lemma ConfirmAlone(d: Desk, o: nat, now: int)
    requires Reads(d.st, o, Draft) ==> !HasOwner(d.st.reservations, o)
    ensures Next(Next(d, EvReadConfirm(o)), EvFinish(|d.attempts|, now)).st == Or(d.st, Confirm(d.st, o, now))
  {
    hide Enough, ReserveLines, HasOwner;
  }

  lemma FulfillAlone(d: Desk, o: nat, now: int)
    ensures Next(Next(d, EvReadFulfill(o)), EvFinish(|d.attempts|, now)).st == Or(d.st, Fulfill(d.st, o))
  {
    hide FulfillLines;
  }

  lemma CancelAlone(d: Desk, o: nat, now: int)
    ensures Next(Next(d, EvReadCancel(o, now)), EvFinish(|d.attempts|, now)).st == Or(d.st, Cancel(d.st, o, now))
  {
    if o < |d.st.orders| {
      var held := Releasable(d.st, o, now);
      if d.st.orders[o].status == Confirmed {
        assert ReleaseThose(d.st.reservations, held) == ReleaseAll(d.st.reservations, o, now);
      } else {
        assert ReleaseThose(d.st.reservations, {}) == d.st.reservations;
      }
    }
  }

  // ---------------------------------------------------------------- what every event keeps

  ghost predicate NoMovement(st: State, o: nat) { forall m :: m in st.movements && m.ref.Some? ==> m.ref.value.0 != o }

  /** Every line has its own active reservation, and nothing has left. */
  ghost predicate Ready(st: State, o: nat)
    requires o < |st.orders|
  {
    (forall k :: 0 <= k < |st.orders[o].lines| ==> LineHeld(st, o, k)) && NoMovement(st, o)
  }

  ghost predicate Untouched(st: State, o: nat)
    requires o < |st.orders|
  {
    && (forall k :: 0 <= k < |st.orders[o].lines| ==> st.orders[o].lines[k].reservation.None?)
    && !HasOwner(st.reservations, o) && NoMovement(st, o)
  }

  /** The line's reservation has been fulfilled or released. */
  predicate Used(st: State, o: nat, k: nat)
    requires o < |st.orders| && k < |st.orders[o].lines|
  {
    var i := st.orders[o].lines[k].reservation;
    && i.Some? && i.value < |st.reservations| && st.reservations[i.value].owner == (o, k)
    && st.reservations[i.value].status != Active
  }

  ghost predicate Spent(st: State, o: nat)
    requires o < |st.orders|
  {
    exists k :: 0 <= k < |st.orders[o].lines| && Used(st, o, k)
  }

  ghost predicate OrderOk(st: State, o: nat)
    requires o < |st.orders|
  {
    && st.orders[o].lines != [] && (forall l :: l in st.orders[o].lines ==> l.quantity > 0)
    && (Untouched(st, o) || Ready(st, o) || Spent(st, o))
    && (st.orders[o].status == Confirmed ==> Ready(st, o))
  }

  /** A reservation belongs to the line that it names. */
  predicate Linked(st: State, i: nat)
    requires i < |st.reservations|
  {
    var r := st.reservations[i];
    && r.quantity > 0 && r.owner.0 < |st.orders| && r.owner.1 < |st.orders[r.owner.0].lines|
    && st.orders[r.owner.0].lines[r.owner.1].reservation == Some(i)
  }

  ghost predicate StockInv(st: State) {
    && Covered(st)
    && (forall o :: 0 <= o < |st.orders| ==> OrderOk(st, o))
    && (forall i :: 0 <= i < |st.reservations| ==> Linked(st, i))
    && (forall m :: m in st.movements && m.ref.Some? ==> m.ref.value.0 < |st.orders|)
  }

  predicate CallOk(st: State, c: Call) {
    && c.o < |st.orders|
    && (c.Cancelling? ==> forall i :: i in c.held ==> i < |st.reservations| && st.reservations[i].owner.0 == c.o)
  }

  ghost predicate DeskInv(d: Desk) { StockInv(d.st) && forall a :: a in d.attempts ==> CallOk(d.st, a.call) }

  /** Orders and reservations are added, and keep what identifies them. */
  ghost predicate Grows(st: State, after: State) {
    && |st.orders| <= |after.orders| && |st.reservations| <= |after.reservations| && after.negative == st.negative
    && (forall i :: 0 <= i < |st.reservations| ==> after.reservations[i].owner == st.reservations[i].owner)
    && forall o :: 0 <= o < |st.orders| ==> after.orders[o].warehouse == st.orders[o].warehouse
  }

  lemma Quantities(st: State)
    requires StockInv(st)
    ensures forall r :: r in st.reservations ==> r.quantity > 0 && r.owner.0 < |st.orders|
  {
    forall r | r in st.reservations ensures r.quantity > 0 && r.owner.0 < |st.orders| {
      var i :| 0 <= i < |st.reservations| && st.reservations[i] == r;
      assert Linked(st, i);
    }
  }

  // ---------------------------------------------------------------- confirming

  /** The line's reservation is the k-th from `start`. */
  predicate PlacedAt(st: State, o: nat, k: nat, start: nat)
    requires o < |st.orders| && k < |st.orders[o].lines|
  {
    && start + k < |st.reservations| && st.reservations[start + k].owner == (o, k)
    && st.orders[o].lines[k].reservation == Some(start + k)
  }

  /** The first n lines have the n newest reservations, in order. */
  lemma {:induction false} ReservedInOrder(st: State, o: nat, n: nat, now: int)
    requires o < |st.orders| && n <= |st.orders[o].lines|
    ensures var after := ReserveLines(st, o, n, now);
            && |after.reservations| == |st.reservations| + n
            && (forall i :: 0 <= i < |st.reservations| ==> after.reservations[i] == st.reservations[i])
            && (forall k :: 0 <= k < n ==> PlacedAt(after, o, k, |st.reservations|))
            && forall p :: 0 <= p < |st.orders| && p != o ==> after.orders[p] == st.orders[p]
  {
    if n > 0 {
      ReservedInOrder(st, o, n - 1, now);
      var before := ReserveLines(st, o, n - 1, now);
      assert ReserveLines(st, o, n, now) == ReserveLine(before, o, n - 1, now);
      ReserveLineFrame(before, o, n - 1, now);
      hide ReserveLines, ReserveLine;
      forall k | 0 <= k < n - 1 ensures PlacedAt(ReserveLines(st, o, n, now), o, k, |st.reservations|) {
        assert PlacedAt(before, o, k, |st.reservations|);
      }
    }
  }

  lemma ReserveLineFrame(st: State, o: nat, k: nat, now: int)
    requires o < |st.orders| && k < |st.orders[o].lines|
    ensures var after := ReserveLine(st, o, k, now);
            && |after.reservations| == |st.reservations| + 1 && |after.orders| == |st.orders|
            && |after.orders[o].lines| == |st.orders[o].lines|
            && after.reservations[|st.reservations|].owner == (o, k)
            && (forall i :: 0 <= i < |st.reservations| ==> after.reservations[i] == st.reservations[i])
            && after.orders[o].lines[k].reservation == Some(|st.reservations|)
            && (forall j :: 0 <= j < |st.orders[o].lines| && j != k ==>
                  after.orders[o].lines[j] == st.orders[o].lines[j])
            && forall p :: 0 <= p < |st.orders| && p != o ==> after.orders[p] == st.orders[p]
  {
  }

  /** What concerns the other orders. */
  ghost predicate OthersStay(st: State, after: State, o: nat) {
    && |after.orders| == |st.orders| && |st.reservations| <= |after.reservations|
    && (forall p :: 0 <= p < |st.orders| && p != o ==> after.orders[p] == st.orders[p])
    && (forall i :: 0 <= i < |st.reservations| ==>
          && after.reservations[i].owner == st.reservations[i].owner
          && (st.reservations[i].owner.0 != o ==> after.reservations[i] == st.reservations[i])
          && (st.reservations[i].status != Active ==> after.reservations[i].status != Active))
    && (forall i :: |st.reservations| <= i < |after.reservations| ==> after.reservations[i].owner.0 == o)
    && forall m :: m in after.movements && m.ref.Some? ==> m in st.movements || m.ref.value.0 == o
  }

  lemma OtherOrderOk(st: State, after: State, o: nat, p: nat)
    requires OthersStay(st, after, o) && p < |st.orders| && p != o && OrderOk(st, p)
    ensures OrderOk(after, p)
  {
    if Ready(st, p) {
      forall k | 0 <= k < |st.orders[p].lines| ensures LineHeld(after, p, k) { assert LineHeld(st, p, k); }
    } else if Spent(st, p) {
      var k :| 0 <= k < |st.orders[p].lines| && Used(st, p, k);
      assert Used(after, p, k);
    } else {
      OwnerlessStays(st, after, o, p);
    }
  }

  lemma OwnerlessStays(st: State, after: State, o: nat, p: nat)
    requires OthersStay(st, after, o) && p != o
    ensures HasOwner(after.reservations, p) ==> HasOwner(st.reservations, p)
  {
    if HasOwner(after.reservations, p) {
      var i :| 0 <= i < |after.reservations| && after.reservations[i].owner.0 == p;
      assert st.reservations[i] in st.reservations;
    }
  }

  lemma ConfirmKeepsCovered(st: State, o: nat, now: int)
    requires StockInv(st) && ConfirmLate(st, o, now).Ok?
    ensures Covered(ConfirmLate(st, o, now).value)
  {
    var lines := st.orders[o].lines;
    assert OrderOk(st, o);
    ReserveSomeLines(st, o, |lines|, now);
    assert lines[..|lines|] == lines;
    var after := ConfirmLate(st, o, now).value;
    hide ReserveLines, Reserved, OnHand, Needed, LineHeld;
    forall item, warehouse | warehouse in after.negative && !after.negative[warehouse]
      ensures Reserved(after.reservations, item, warehouse) <= OnHand(after.movements, item, warehouse)
    {
      if warehouse == st.orders[o].warehouse { EnoughForAll(st, o, item); }
    }
  }

  lemma ConfirmedLines(st: State, o: nat, now: int)
    requires StockInv(st) && ConfirmLate(st, o, now).Ok?
    ensures OrderOk(ConfirmLate(st, o, now).value, o)
  {
    var lines, after := st.orders[o].lines, ConfirmLate(st, o, now).value;
    assert OrderOk(st, o);
    Unowned(st, o);
    ReserveSomeLines(st, o, |lines|, now);
    var done := ReserveLines(st, o, |lines|, now);
    hide ReserveLines, Covered, Reserved, Needed, Enough, StockInv, HasOwner;
    forall k | 0 <= k < |lines| ensures LineHeld(after, o, k) { assert LineHeld(done, o, k); }
    assert NoMovement(after, o);
    assert forall k :: 0 <= k < |lines| ==> after.orders[o].lines[k].quantity == lines[k].quantity && lines[k] in lines;
  }

  lemma ConfirmedOthers(st: State, o: nat, now: int)
    requires StockInv(st) && ConfirmLate(st, o, now).Ok?
    ensures OthersStay(st, ConfirmLate(st, o, now).value, o) && Grows(st, ConfirmLate(st, o, now).value)
  {
    var lines := st.orders[o].lines;
    assert OrderOk(st, o);
    ReserveSomeLines(st, o, |lines|, now);
    hide ReserveLines, Covered, Reserved, Needed, Enough, StockInv, HasOwner, LineHeld, OrderOk;
  }

  lemma ConfirmedLinks(st: State, o: nat, now: int, i: nat)
    requires StockInv(st) && ConfirmLate(st, o, now).Ok? && i < |ConfirmLate(st, o, now).value.reservations|
    ensures Linked(ConfirmLate(st, o, now).value, i)
  {
    var lines, after := st.orders[o].lines, ConfirmLate(st, o, now).value;
    assert OrderOk(st, o);
    ReserveSomeLines(st, o, |lines|, now);
    ReservedInOrder(st, o, |lines|, now);
    hide ReserveLines, Covered, Reserved, Needed, Enough, OrderOk, LineHeld;
    if i < |st.reservations| {
      assert Linked(st, i) && st.reservations[i] in st.reservations;
    } else {
      assert PlacedAt(ReserveLines(st, o, |lines|, now), o, i - |st.reservations|, |st.reservations|);
    }
  }

  lemma ConfirmKeepsStock(st: State, o: nat, now: int)
    requires StockInv(st) && ConfirmLate(st, o, now).Ok?
    ensures StockInv(ConfirmLate(st, o, now).value) && Grows(st, ConfirmLate(st, o, now).value)
    ensures OthersStay(st, ConfirmLate(st, o, now).value, o)
  {
    var after := ConfirmLate(st, o, now).value;
    ConfirmKeepsCovered(st, o, now);
    ConfirmedLines(st, o, now);
    ConfirmedOthers(st, o, now);
    SameMovements(st, o, now);
    forall p | 0 <= p < |after.orders| ensures OrderOk(after, p) {
      assert OrderOk(st, p);
      if p != o { OtherOrderOk(st, after, o, p); }
    }
    forall i | 0 <= i < |after.reservations| ensures Linked(after, i) { ConfirmedLinks(st, o, now, i); }
    hide ConfirmLate, Covered, OrderOk, Linked;
  }

  lemma SameMovements(st: State, o: nat, now: int)
    requires ConfirmLate(st, o, now).Ok?
    ensures ConfirmLate(st, o, now).value.movements == st.movements
  {
    hide Enough, HasOwner;
  }

  lemma ReadyOwns(st: State, o: nat)
    requires o < |st.orders| && Ready(st, o) && st.orders[o].lines != []
    ensures HasOwner(st.reservations, o)
  {
    assert LineHeld(st, o, 0);
    assert st.reservations[st.orders[o].lines[0].reservation.value] in st.reservations;
  }

  lemma SpentOwns(st: State, o: nat)
    requires o < |st.orders| && Spent(st, o)
    ensures HasOwner(st.reservations, o)
  {
    var k :| 0 <= k < |st.orders[o].lines| && Used(st, o, k);
    assert st.reservations[st.orders[o].lines[k].reservation.value] in st.reservations;
  }

  /** Without reservations nothing has left: a movement would have used one. */
  lemma Unowned(st: State, o: nat)
    requires StockInv(st) && o < |st.orders| && !HasOwner(st.reservations, o)
    ensures Untouched(st, o)
  {
    assert OrderOk(st, o);
    hide StockInv, HasOwner, LineHeld, Used;
    if Ready(st, o) { ReadyOwns(st, o); }
    if Spent(st, o) { SpentOwns(st, o); }
  }

  // ---------------------------------------------------------------- fulfilling

  predicate IsUsed(st: State, i: Option<nat>) {
    i.Some? && i.value < |st.reservations| && st.reservations[i.value].status != Active
  }

  /** Fulfilling only turns reservations of the order into fulfilled ones. */
  lemma {:induction false} FulfillFrame(st: State, o: nat, n: nat)
    requires o < |st.orders| && n <= |st.orders[o].lines| && FulfillLines(st, o, n).Ok?
    requires forall i :: 0 <= i < |st.reservations| ==> Linked(st, i)
    ensures var after := FulfillLines(st, o, n).value;
            && |after.reservations| == |st.reservations| && after.orders == st.orders && after.negative == st.negative
            && (forall i :: 0 <= i < |st.reservations| ==>
                  after.reservations[i] == st.reservations[i]
                  || after.reservations[i] == st.reservations[i].(status := FulfilledReservation))
            && forall k :: 0 <= k < n ==> IsUsed(after, st.orders[o].lines[k].reservation)
  {
    if n > 0 {
      FulfillFrame(st, o, n - 1);
      var before := FulfillLines(st, o, n - 1).value;
      assert FulfillLines(st, o, n) == FulfillLine(before, o, n - 1);
      FulfillLineFrame(before, o, n - 1);
      hide FulfillLines, FulfillLine, Linked;
    }
  }

  lemma FulfillLineFrame(st: State, o: nat, k: nat)
    requires o < |st.orders| && k < |st.orders[o].lines| && FulfillLine(st, o, k).Ok?
    ensures var i, after := st.orders[o].lines[k].reservation, FulfillLine(st, o, k).value;
            && i.Some? && i.value < |st.reservations| && after.orders == st.orders && after.negative == st.negative
            && after.reservations
               == st.reservations[i.value := st.reservations[i.value].(status := FulfilledReservation)]
  {
    hide OnHand;
  }

  /** A line whose reservation has been used stops the call. */
  lemma {:induction false} UsedStops(st: State, o: nat, k: nat, n: nat)
    requires o < |st.orders| && k < n <= |st.orders[o].lines| && Used(st, o, k)
    requires forall i :: 0 <= i < |st.reservations| ==> Linked(st, i)
    ensures FulfillLines(st, o, n).Err?
  {
    if n - 1 > k {
      UsedStops(st, o, k, n - 1);
    } else if FulfillLines(st, o, k).Ok? {
      FulfillFrame(st, o, k);
    }
  }

  /** So a call that succeeds has found every line with its own reservation, whatever the order's status. */
  lemma FulfilledWasReady(st: State, o: nat)
    requires StockInv(st) && FulfillLate(st, o).Ok?
    ensures Ready(st, o)
  {
    assert OrderOk(st, o);
    hide Covered, OnHand;
    var n := |st.orders[o].lines|;
    if Spent(st, o) {
      var k :| 0 <= k < n && Used(st, o, k);
      UsedStops(st, o, k, n);
    } else if Untouched(st, o) {
      FirstLineStops(st, o, n);
    }
  }

  lemma {:induction false} FirstLineStops(st: State, o: nat, n: nat)
    requires o < |st.orders| && 0 < n <= |st.orders[o].lines| && st.orders[o].lines[0].reservation.None?
    ensures FulfillLines(st, o, n).Err?
  {
    if n > 1 { FirstLineStops(st, o, n - 1); } else { assert FulfillLines(st, o, 0) == Ok(st); }
  }

  lemma ReadyIsHalfway(st: State, o: nat)
    requires StockInv(st) && o < |st.orders| && Ready(st, o)
    ensures Halfway(st, o, 0)
  {
    Quantities(st);
    hide Covered, LineHeld, Linked;
  }

  lemma FulfillKeepsStock(st: State, o: nat)
    requires StockInv(st) && FulfillLate(st, o).Ok?
    ensures StockInv(FulfillLate(st, o).value) && Grows(st, FulfillLate(st, o).value)
    ensures OthersStay(st, FulfillLate(st, o).value, o)
  {
    var n, after := |st.orders[o].lines|, FulfillLate(st, o).value;
    var done := FulfillLines(st, o, n).value;
    FulfilledWasReady(st, o);
    FulfilledRows(st, o);
    FulfilledIsSpent(st, o);
    hide FulfillLines, Covered, FulfillLate, Used, LineHeld;
    forall p | 0 <= p < |after.orders| ensures OrderOk(after, p) {
      assert OrderOk(st, p);
      if p != o { OtherOrderOk(st, after, o, p); }
    }
    forall i | 0 <= i < |after.reservations| ensures Linked(after, i) { assert Linked(st, i); }
  }

  lemma FulfilledRows(st: State, o: nat)
    requires StockInv(st) && FulfillLate(st, o).Ok? && Ready(st, o)
    ensures var after := FulfillLate(st, o).value;
            && Covered(after) && OthersStay(st, after, o) && |after.reservations| == |st.reservations|
            && after.negative == st.negative && after.orders == st.orders[o := st.orders[o].(status := Fulfilled)]
            && (forall i :: 0 <= i < |st.reservations| ==>
                  after.reservations[i].(status := Active) == st.reservations[i].(status := Active))
            && (forall m :: m in after.movements && m.ref.Some? ==> m.ref.value.0 < |st.orders|)
  {
    var n := |st.orders[o].lines|;
    var done := FulfillLines(st, o, n).value;
    ReadyIsHalfway(st, o);
    FulfillSomeLines(st, o, n);
    FulfillFrame(st, o, n);
    CoveredHalfway(done, o, n);
    HalfwayMembers(done, o, n);
    OnlyOwnChange(st, o, n);
    hide FulfillLines, Covered, Halfway, LineHeld, Ready, StockInv;
    FulfilledOthersStay(st, done, o);
  }

  /** What a line uses is its own. */
  lemma {:induction false} OnlyOwnChange(st: State, o: nat, n: nat)
    requires o < |st.orders| && n <= |st.orders[o].lines| && FulfillLines(st, o, n).Ok?
    requires forall k :: 0 <= k < |st.orders[o].lines| ==> LineHeld(st, o, k)
    ensures var after := FulfillLines(st, o, n).value;
            && |after.reservations| == |st.reservations|
            && forall i :: 0 <= i < |st.reservations| && st.reservations[i].owner.0 != o ==>
                 after.reservations[i] == st.reservations[i]
  {
    if n > 0 {
      OnlyOwnChange(st, o, n - 1);
      FulfillLineFrame(FulfillLines(st, o, n - 1).value, o, n - 1);
      assert LineHeld(st, o, n - 1);
      hide FulfillLine;
    }
  }

  lemma FulfilledIsSpent(st: State, o: nat)
    requires StockInv(st) && FulfillLate(st, o).Ok? && Ready(st, o)
    ensures OrderOk(FulfillLate(st, o).value, o)
  {
    var n, after := |st.orders[o].lines|, FulfillLate(st, o).value;
    assert OrderOk(st, o) && LineHeld(st, o, 0);
    FulfillFrame(st, o, n);
    hide FulfillLines, Covered, Linked;
    assert Used(after, o, 0);
  }

  lemma FulfilledOthersStay(st: State, done: State, o: nat)
    requires o < |st.orders| && OthersKept(st, done, o) && |done.reservations| == |st.reservations|
    requires forall i :: 0 <= i < |st.reservations| ==>
               done.reservations[i] == st.reservations[i]
               || (st.reservations[i].owner.0 == o
                   && done.reservations[i] == st.reservations[i].(status := FulfilledReservation))
    ensures OthersStay(st, SetStatus(done, o, Fulfilled), o)
  {
  }

  // ---------------------------------------------------------------- cancelling

  lemma {:induction false} ReleasingIsLess(rs: seq<Reservation>, held: set<nat>, item: string, warehouse: string)
    requires forall r :: r in rs ==> r.quantity > 0
    ensures Reserved(ReleaseThose(rs, held), item, warehouse) <= Reserved(rs, item, warehouse)
  {
    if rs != [] {
      var n := |rs| - 1;
      assert rs[n] in rs;
      assert ReleaseThose(rs, held)[..n] == ReleaseThose(rs[..n], held);
      ReleasingIsLess(rs[..n], held, item, warehouse);
    }
  }

  lemma CancelKeepsStock(st: State, o: nat, held: set<nat>)
    requires StockInv(st) && CallOk(st, Cancelling(o, held))
    ensures StockInv(CancelLate(st, o, held)) && Grows(st, CancelLate(st, o, held))
    ensures OthersStay(st, CancelLate(st, o, held), o)
  {
    var after := CancelLate(st, o, held);
    Quantities(st);
    assert OrderOk(st, o);
    assert Covered(after) by {
      hide Reserved, OnHand;
      forall item, warehouse | warehouse in after.negative && !after.negative[warehouse]
        ensures Reserved(after.reservations, item, warehouse) <= OnHand(after.movements, item, warehouse)
      {
        ReleasingIsLess(st.reservations, held, item, warehouse);
      }
    }
    hide Covered;
    forall p | 0 <= p < |after.orders| ensures OrderOk(after, p) {
      if p == o { CancelledOrderOk(st, o, held); } else { OtherOrderOk(st, after, o, p); }
    }
    forall i | 0 <= i < |after.reservations| ensures Linked(after, i) { assert Linked(st, i); }
  }

  /** Releasing something of the order leaves it spent; releasing nothing leaves it as it was. */
  lemma CancelledOrderOk(st: State, o: nat, held: set<nat>)
    requires StockInv(st) && CallOk(st, Cancelling(o, held))
    ensures OrderOk(CancelLate(st, o, held), o)
  {
    var after := CancelLate(st, o, held);
    assert OrderOk(st, o);
    hide Covered;
    if i :| i in held {
      assert Linked(st, i);
      assert Used(after, o, st.reservations[i].owner.1);
    } else {
      assert ReleaseThose(st.reservations, held) == st.reservations;
      if Ready(st, o) {
        forall k | 0 <= k < |st.orders[o].lines| ensures LineHeld(after, o, k) { assert LineHeld(st, o, k); }
      } else if Spent(st, o) {
        var k :| 0 <= k < |st.orders[o].lines| && Used(st, o, k);
        assert Used(after, o, k);
      }
    }
  }

  // ---------------------------------------------------------------- the other steps

  lemma ReceiveKeepsStock(st: State, item: string, warehouse: string, quantity: int)
    requires StockInv(st) && Receive(st, item, warehouse, quantity).Ok?
    ensures var after := Receive(st, item, warehouse, quantity).value; StockInv(after) && Grows(st, after)
  {
    var after := Receive(st, item, warehouse, quantity).value;
    assert Covered(after) by {
      hide Reserved, OnHand;
      forall i, w | w in after.negative && !after.negative[w]
        ensures Reserved(after.reservations, i, w) <= OnHand(after.movements, i, w)
      {
        OnHandAdded(st.movements, after.movements[|st.movements|], i, w);
      }
    }
    hide Covered;
    forall p | 0 <= p < |after.orders| ensures OrderOk(after, p) { SameOrderOk(st, after, p); }
    forall i | 0 <= i < |after.reservations| ensures Linked(after, i) { assert Linked(st, i); }
  }

  lemma SameOrderOk(st: State, after: State, p: nat)
    requires StockInv(st) && p < |st.orders| <= |after.orders| && after.orders[p] == st.orders[p]
    requires after.reservations == st.reservations
    requires forall m :: m in after.movements && m.ref.Some? ==> m in st.movements
    ensures OrderOk(after, p)
  {
    assert OrderOk(st, p);
    hide Covered;
    if Ready(st, p) {
      forall k | 0 <= k < |st.orders[p].lines| ensures LineHeld(after, p, k) { assert LineHeld(st, p, k); }
    } else if Spent(st, p) {
      var k :| 0 <= k < |st.orders[p].lines| && Used(st, p, k);
      assert Used(after, p, k);
    }
  }

  lemma DraftKeepsStock(st: State, warehouse: string, lines: seq<(string, int)>)
    requires StockInv(st) && CreateDraft(st, warehouse, lines).Ok?
    ensures var after := CreateDraft(st, warehouse, lines).value; StockInv(after) && Grows(st, after)
  {
    var after := CreateDraft(st, warehouse, lines).value;
    assert Covered(after) by { hide Reserved, OnHand; }
    Quantities(st);
    hide Covered;
    forall p | 0 <= p < |after.orders| ensures OrderOk(after, p) {
      if p < |st.orders| {
        SameOrderOk(st, after, p);
      } else {
        assert forall k :: 0 <= k < |lines| ==> lines[k] in lines;
        assert Untouched(after, p);
      }
    }
    forall i | 0 <= i < |after.reservations| ensures Linked(after, i) { assert Linked(st, i); }
  }

  // ---------------------------------------------------------------- every interleaving

  lemma CallStays(st: State, after: State, c: Call)
    requires CallOk(st, c) && Grows(st, after)
    ensures CallOk(after, c)
  {
  }

  lemma FinishKeepsStock(st: State, c: Call, now: int)
    requires StockInv(st) && CallOk(st, c)
    ensures StockInv(Finish(st, c, now)) && Grows(st, Finish(st, c, now))
  {
    hide StockInv, Grows, ConfirmLate, FulfillLate, CancelLate;
    GrowsItself(st);
    match c
    case Confirming(o) => if ConfirmLate(st, o, now).Ok? { ConfirmKeepsStock(st, o, now); }
    case Fulfilling(o) => if FulfillLate(st, o).Ok? { FulfillKeepsStock(st, o); }
    case Cancelling(o, held) => CancelKeepsStock(st, o, held);
  }

  lemma GrowsItself(st: State)
    ensures Grows(st, st)
  {
  }

  lemma NextKeepsDesk(d: Desk, e: Event)
    requires DeskInv(d)
    ensures DeskInv(Next(d, e)) && Grows(d.st, Next(d, e).st)
  {
    var after := Next(d, e);
    GrowsItself(d.st);
    hide StockInv, Grows, Receive, CreateDraft, Finish;
    match e {
      case EvReceive(item, warehouse, quantity) =>
        if Receive(d.st, item, warehouse, quantity).Ok? { ReceiveKeepsStock(d.st, item, warehouse, quantity); }
      case EvDraft(warehouse, lines) =>
        if CreateDraft(d.st, warehouse, lines).Ok? { DraftKeepsStock(d.st, warehouse, lines); }
      case EvFinish(a, now) => if IsOpen(d, a) { FinishKeepsStock(d.st, d.attempts[a].call, now); }
      case _ =>
    }
    forall x | x in after.attempts ensures CallOk(after.st, x.call) {
      var a :| 0 <= a < |after.attempts| && after.attempts[a] == x;
      if a < |d.attempts| {
        assert d.attempts[a] in d.attempts;
        CallStays(d.st, after.st, d.attempts[a].call);
      }
    }
  }

  function Empty(negative: map<string, bool>): Desk { Desk(State(negative, [], [], []), []) }

  lemma {:induction false} RunKeepsDesk(negative: map<string, bool>, events: seq<Event>)
    ensures DeskInv(RunAll(Empty(negative), events)) && RunAll(Empty(negative), events).st.negative == negative
  {
    if events != [] {
      RunKeepsDesk(negative, events[..|events| - 1]);
      hide DeskInv, Next;
      NextKeepsDesk(RunAll(Empty(negative), events[..|events| - 1]), events[|events| - 1]);
    }
  }

  /** Main result, over every interleaving: in a warehouse without negative stock active reservations never exceed
      the stock of the ledger, and a confirmed order can be fulfilled whenever it is tried. */
  lemma NeverOversold(negative: map<string, bool>, events: seq<Event>, item: string, warehouse: string, o: nat)
    requires warehouse in negative && !negative[warehouse]
    ensures var now := RunAll(Empty(negative), events).st;
            && 0 <= Reserved(now.reservations, item, warehouse) <= OnHand(now.movements, item, warehouse)
            && (o < |now.orders| && now.orders[o].status == Confirmed && now.orders[o].warehouse == warehouse ==>
                  Fulfill(now, o).Ok?)
  {
    var now := RunAll(Empty(negative), events).st;
    RunKeepsDesk(negative, events);
    Quantities(now);
    ReservedNonNegative(now.reservations, item, warehouse);
    assert Covered(now);
    hide RunAll, Reserved, OnHand, Covered;
    if o < |now.orders| && now.orders[o].status == Confirmed && now.orders[o].warehouse == warehouse {
      assert OrderOk(now, o);
      ReadyIsHalfway(now, o);
      LinesAreReady(now, o, |now.orders[o].lines|);
    }
  }

  // ---------------------------------------------------------------- orders that are closed

  predicate Closed(x: Order) { x.status == Fulfilled || x.status == Cancelled }

  ghost predicate ClosedStay(st: State, after: State) {
    && |st.orders| <= |after.orders|
    && forall o :: 0 <= o < |st.orders| && Closed(st.orders[o]) ==> after.orders[o].status == st.orders[o].status
  }

  /** The call succeeds on an order that was closed, in another way, since it read it. */
  predicate Late(d: Desk, e: Event) {
    && e.EvFinish? && IsOpen(d, e.a)
    && var c := d.attempts[e.a].call;
       c.o < |d.st.orders|
       && match c
          case Confirming(o) => Closed(d.st.orders[o]) && ConfirmLate(d.st, o, e.now).Ok?
          case Fulfilling(o) => d.st.orders[o].status == Cancelled && FulfillLate(d.st, o).Ok?
          case Cancelling(o, _) => d.st.orders[o].status == Fulfilled
  }

  lemma FinishStatuses(st: State, c: Call, now: int)
    requires StockInv(st) && CallOk(st, c)
    ensures var after := Finish(st, c, now);
            && |after.orders| == |st.orders|
            && (forall p :: 0 <= p < |st.orders| && p != c.o ==> after.orders[p] == st.orders[p])
            && after.orders[c.o].status ==
                 match c {
                   case Confirming(o) => if ConfirmLate(st, o, now).Ok? then Confirmed else st.orders[o].status
                   case Fulfilling(o) => if FulfillLate(st, o).Ok? then Fulfilled else st.orders[o].status
                   case Cancelling(_, _) => Cancelled
                 }
  {
    match c
    case Confirming(o) =>
      if ConfirmLate(st, o, now).Ok? { ConfirmKeepsStock(st, o, now); }
      hide StockInv, Enough, ReserveLine;
    case Fulfilling(o) =>
      if FulfillLate(st, o).Ok? { FulfillKeepsStock(st, o); }
      hide StockInv, FulfillLine;
    case Cancelling(o, held) => hide StockInv;
  }

  lemma NextKeepsClosedIff(d: Desk, e: Event)
    requires DeskInv(d)
    ensures ClosedStay(d.st, Next(d, e).st) <==> !Late(d, e)
  {
    if e.EvFinish? && IsOpen(d, e.a) {
      var c := d.attempts[e.a].call;
      assert CallOk(d.st, c) by { assert d.attempts[e.a] in d.attempts; }
      hide DeskInv;
      assert StockInv(d.st) by { StockOf(d); }
      FinishStatuses(d.st, c, e.now);
      hide StockInv, Finish, ConfirmLate, FulfillLate;
    } else {
      hide DeskInv, Finish;
    }
  }

  lemma StockOf(d: Desk)
    requires DeskInv(d)
    ensures StockInv(d.st)
  {
  }

  ghost predicate AlwaysClosedStay(start: Desk, events: seq<Event>) {
    events != [] ==>
      && AlwaysClosedStay(start, events[..|events| - 1])
      && ClosedStay(RunAll(start, events[..|events| - 1]).st, RunAll(start, events).st)
  }

  predicate NeverLate(start: Desk, events: seq<Event>) {
    events != [] ==>
      && NeverLate(start, events[..|events| - 1])
      && !Late(RunAll(start, events[..|events| - 1]), events[|events| - 1])
  }

  /** Over every interleaving: fulfilled and cancelled orders stay what they are if and only if no call succeeds on
      an order that was closed since the call read it. */
  lemma {:induction false} ClosedStayIff(negative: map<string, bool>, events: seq<Event>)
    ensures AlwaysClosedStay(Empty(negative), events) <==> NeverLate(Empty(negative), events)
  {
    if events != [] {
      var init := events[..|events| - 1];
      ClosedStayIff(negative, init);
      RunKeepsDesk(negative, init);
      hide DeskInv, ClosedStay, Late, Next;
      NextKeepsClosedIff(RunAll(Empty(negative), init), events[|events| - 1]);
    }
  }

  // ---------------------------------------------------------------- calls that overlap

  lemma FourEvents(d: Desk, e0: Event, e1: Event, e2: Event, e3: Event)
    ensures RunAll(d, [e0, e1, e2, e3]) == Next(Next(Next(Next(d, e0), e1), e2), e3)
  {
    hide Next;
    Then(d, [], e0);
    Then(d, [e0], e1);
    Then(d, [e0, e1], e2);
    Then(d, [e0, e1, e2], e3);
    assert [] + [e0] == [e0] && [e0] + [e1] == [e0, e1] && [e0, e1] + [e2] == [e0, e1, e2];
    assert [e0, e1, e2] + [e3] == [e0, e1, e2, e3];
  }

  lemma Then(d: Desk, events: seq<Event>, e: Event)
    ensures RunAll(d, events + [e]) == Next(RunAll(d, events), e)
  {
    assert (events + [e])[..|events|] == events;
  }

  /** Both calls read the order; the other one commits first, and the cancellation writes over it. */
  function CancelOver(d: Desk, o: nat, other: Event, now: int): seq<Event> {
    [EvReadCancel(o, now), other, EvFinish(|d.attempts| + 1, now), EvFinish(|d.attempts|, now)]
  }

  lemma CancelledOver(d: Desk, o: nat, other: Event, call: Call, held: set<nat>, now: int)
    requires Next(d, EvReadCancel(o, now)) == Open(d, Cancelling(o, held))
    requires Next(Open(d, Cancelling(o, held)), other) == Open(Open(d, Cancelling(o, held)), call)
    ensures RunAll(d, CancelOver(d, o, other, now)).st == CancelLate(Finish(d.st, call, now), o, held)
  {
    hide RunAll, Finish, CancelLate, Next, Open;
    FourEvents(d, EvReadCancel(o, now), other, EvFinish(|d.attempts| + 1, now), EvFinish(|d.attempts|, now));
    BothFinish(d, Cancelling(o, held), call, now);
    FinishCancel(Finish(d.st, call, now), o, held, now);
  }

  /** Two calls have read; the second commits, then the first. */
  lemma BothFinish(d: Desk, first: Call, second: Call, now: int)
    ensures var both, n := Open(Open(d, first), second), |d.attempts|;
            Next(Next(both, EvFinish(n + 1, now)), EvFinish(n, now)).st == Finish(Finish(d.st, second, now), first, now)
  {
    hide Finish;
    var both, n := Open(Open(d, first), second), |d.attempts|;
    assert both.attempts[n] == Attempt(first, true) && both.attempts[n + 1] == Attempt(second, true);
    var one := End(both.(st := Finish(d.st, second, now)), n + 1);
    assert Next(both, EvFinish(n + 1, now)) == one;
    assert one.attempts[n] == Attempt(first, true);
  }

  lemma FinishCancel(st: State, o: nat, held: set<nat>, now: int)
    ensures Finish(st, Cancelling(o, held), now) == CancelLate(st, o, held)
  {
    hide CancelLate;
  }

  lemma ReadsCancel(d: Desk, o: nat, now: int)
    requires o < |d.st.orders| && d.st.orders[o].status in {Draft, Confirmed}
    ensures Next(d, EvReadCancel(o, now)) == Open(d, Cancelling(o, Releasable(d.st, o, now)))
  {
    hide Releasable;
  }

  /** A cancellation that overlaps the confirmation: the order is cancelled, and all that was reserved for it stays
      reserved. */
  lemma CancelledStillHolds(d: Desk, o: nat, now: int)
    requires DeskInv(d) && Reads(d.st, o, Draft) && ConfirmLate(d.st, o, now).Ok?
    ensures var st := RunAll(d, CancelOver(d, o, EvReadConfirm(o), now)).st;
            && o < |st.orders| && st.orders[o].status == Cancelled && Ready(st, o)
            && Cancel(st, o, now) == Err(WrongState)
  {
    var confirmed := ConfirmLate(d.st, o, now).value;
    CancelledOver(d, o, EvReadConfirm(o), Confirming(o), {}, now);
    ConfirmKeepsStock(d.st, o, now);
    FinishStatuses(d.st, Confirming(o), now);
    assert OrderOk(confirmed, o);
    assert ReleaseThose(confirmed.reservations, {}) == confirmed.reservations;
    hide ConfirmLate, RunAll, StockInv, CancelOver;
    var st := CancelLate(confirmed, o, {});
    forall k | 0 <= k < |st.orders[o].lines| ensures LineHeld(st, o, k) { assert LineHeld(confirmed, o, k); }
  }

  /** A cancellation that overlaps the fulfillment: the goods have left, and the order is cancelled. */
  lemma CancelledAfterFulfillment(d: Desk, o: nat, now: int)
    requires DeskInv(d) && Reads(d.st, o, Confirmed)
    requires d.st.orders[o].warehouse in d.st.negative && !d.st.negative[d.st.orders[o].warehouse]
    ensures var st := RunAll(d, CancelOver(d, o, EvReadFulfill(o), now)).st;
            && o < |st.orders| && st.orders[o].status == Cancelled
            && forall k :: 0 <= k < |st.orders[o].lines| ==> HasLeft(st, o, k)
  {
    var n := |d.st.orders[o].lines|;
    ReadsCancel(d, o, now);
    CancelledOver(d, o, EvReadFulfill(o), Fulfilling(o), Releasable(d.st, o, now), now);
    assert OrderOk(d.st, o);
    ReadyIsHalfway(d.st, o);
    LinesAreReady(d.st, o, n);
    LinesLeave(d.st, o, n);
    FulfillKeepsStock(d.st, o);
    FinishStatuses(d.st, Fulfilling(o), now);
    hide RunAll, StockInv, FulfillLines, CancelOver, HasLeft;
    var done, st := FulfillLines(d.st, o, n).value, RunAll(d, CancelOver(d, o, EvReadFulfill(o), now)).st;
    assert st.movements == done.movements;
    forall k | 0 <= k < n ensures HasLeft(st, o, k) { LeftAgain(done, st, o, k); }
  }

  /** A movement took the line out of stock. */
  predicate HasLeft(st: State, o: nat, k: nat) { exists m :: m in st.movements && m.ref == Some((o, k)) }

  lemma LeftAgain(st: State, after: State, o: nat, k: nat)
    requires HasLeft(st, o, k) && after.movements == st.movements
    ensures HasLeft(after, o, k)
  {
  }

  lemma LineLeaves(st: State, o: nat, k: nat)
    requires o < |st.orders| && k < |st.orders[o].lines| && FulfillLine(st, o, k).Ok?
    ensures exists m: Movement ::
              FulfillLine(st, o, k).value.movements == st.movements + [m] && m.ref == Some((o, k))
  {
    hide OnHand;
  }

  lemma {:induction false} LinesLeave(st: State, o: nat, n: nat)
    requires o < |st.orders| && n <= |st.orders[o].lines| && FulfillLines(st, o, n).Ok?
    ensures forall k :: 0 <= k < n ==> HasLeft(FulfillLines(st, o, n).value, o, k)
  {
    if n > 0 {
      LinesLeave(st, o, n - 1);
      var before, after := FulfillLines(st, o, n - 1).value, FulfillLines(st, o, n).value;
      LineLeaves(before, o, n - 1);
      hide FulfillLine;
      var m: Movement :| after.movements == before.movements + [m] && m.ref == Some((o, n - 1));
      assert m in after.movements;
      forall k | 0 <= k < n - 1 ensures HasLeft(after, o, k) { assert HasLeft(before, o, k); }
    }
  }
}
