/** Sales orders against stock: reservations, and the movement ledger that stock is computed from.

    One tenant. Receipts are plain incoming movements; the inventory service that books them is not
    part of this model. */
module Stock {
  import opened Outcomes

  datatype Direction = In | Out | Transfer(destination: string)

  /** `ref` is the order line that a fulfillment movement belongs to. */
  datatype Movement = Movement(item: string, warehouse: string, quantity: int, direction: Direction,
                               ref: Option<(nat, nat)>)

  datatype ReservationStatus = Active | Released | FulfilledReservation

  /** A reservation; `owner` is the order line that its reference names. */
  datatype Reservation = Reservation(item: string, warehouse: string, quantity: int, status: ReservationStatus,
                                     owner: (nat, nat), expires: int)

  datatype OrderStatus = Draft | Confirmed | Fulfilled | Cancelled

  datatype Line = Line(item: string, quantity: int, reservation: Option<nat>)

  datatype Order = Order(warehouse: string, status: OrderStatus, lines: seq<Line>)

  datatype State = State(
    negative: map<string, bool>, orders: seq<Order>, reservations: seq<Reservation>, movements: seq<Movement>)

  datatype Error =
    | NoLines | BadQuantity | NotFound | WrongState | InsufficientStock | NoReservation | NotPhysicallyAvailable
    | MovementExists

  // ---------------------------------------------------------------- stock figures

  /** What a movement does to the stock of a warehouse. */
  function Effect(m: Movement, item: string, warehouse: string): int {
    if m.item != item then 0
    else
      (if m.warehouse == warehouse then if m.direction.In? then m.quantity else -m.quantity else 0)
      + if m.direction.Transfer? && m.direction.destination == warehouse then m.quantity else 0
  }

  function OnHand(movements: seq<Movement>, item: string, warehouse: string): int {
    if movements == [] then 0
    else OnHand(movements[..|movements| - 1], item, warehouse) + Effect(movements[|movements| - 1], item, warehouse)
  }

  function Held(r: Reservation, item: string, warehouse: string): int {
    if r.item == item && r.warehouse == warehouse && r.status == Active then r.quantity else 0
  }

  function Reserved(reservations: seq<Reservation>, item: string, warehouse: string): int {
    if reservations == [] then 0
    else Reserved(reservations[..|reservations| - 1], item, warehouse)
         + Held(reservations[|reservations| - 1], item, warehouse)
  }

  function Needed(lines: seq<Line>, item: string): int {
    if lines == [] then 0
    else
      var l := lines[|lines| - 1];
      Needed(lines[..|lines| - 1], item) + if l.item == item then l.quantity else 0
  }

  // ---------------------------------------------------------------- operations

  function Receive(st: State, item: string, warehouse: string, quantity: int): Result<State, Error> {
    if quantity <= 0 then Err(BadQuantity)
    else if warehouse !in st.negative then Err(NotFound)
    else Ok(st.(movements := st.movements + [Movement(item, warehouse, quantity, In, None)]))
  }

  function CreateDraft(st: State, warehouse: string, lines: seq<(string, int)>): Result<State, Error> {
    if lines == [] then Err(NoLines)
    else if warehouse !in st.negative then Err(NotFound)
    else if exists l :: l in lines && l.1 <= 0 then Err(BadQuantity)
    else Ok(st.(orders := st.orders + [Order(warehouse, Draft, DraftLines(lines))]))
  }

  function DraftLines(lines: seq<(string, int)>): (r: seq<Line>)
    ensures |r| == |lines| && forall k :: 0 <= k < |r| ==> r[k] == Line(lines[k].0, lines[k].1, None)
  {
    seq(|lines|, k requires 0 <= k < |lines| => Line(lines[k].0, lines[k].1, None))
  }

  /** Lines n and following of the order, reserved one by one. */
  function ReserveLine(st: State, o: nat, k: nat, now: int): State
    requires o < |st.orders| && k < |st.orders[o].lines|
  {
    var x, l := st.orders[o], st.orders[o].lines[k];
    var held := Reservation(l.item, x.warehouse, l.quantity, Active, (o, k), now + 30);
    st.(orders := st.orders[o := x.(lines := x.lines[k := l.(reservation := Some(|st.reservations|))])],
        reservations := st.reservations + [held])
  }

  function ReserveLines(st: State, o: nat, n: nat, now: int): (r: State)
    requires o < |st.orders| && n <= |st.orders[o].lines|
    ensures |r.orders| == |st.orders| && |r.orders[o].lines| == |st.orders[o].lines|
    ensures r.orders[o].warehouse == st.orders[o].warehouse
    ensures r.negative == st.negative && r.movements == st.movements
  {
    if n == 0 then st else ReserveLine(ReserveLines(st, o, n - 1, now), o, n - 1, now)
  }

  predicate Enough(st: State, o: nat)
    requires o < |st.orders|
  {
    var x := st.orders[o];
    forall l :: l in x.lines ==>
        Needed(x.lines, l.item)
            <= OnHand(st.movements, l.item, x.warehouse) - Reserved(st.reservations, l.item, x.warehouse)
  }

  function SetStatus(st: State, o: nat, s: OrderStatus): State
    requires o < |st.orders|
  {
    st.(orders := st.orders[o := st.orders[o].(status := s)])
  }

  function Confirm(st: State, o: nat, now: int): Result<State, Error> {
    if o >= |st.orders| || st.orders[o].warehouse !in st.negative then Err(NotFound)
    else if st.orders[o].status != Draft then Err(WrongState)
    else if st.orders[o].lines == [] then Err(NoLines)
    else if !st.negative[st.orders[o].warehouse] && !Enough(st, o) then Err(InsufficientStock)
    else Ok(SetStatus(ReserveLines(st, o, |st.orders[o].lines|, now), o, Confirmed))
  }

  function Release(r: Reservation, o: nat, now: int): Reservation {
    if r.owner.0 == o && r.status == Active && r.expires > now then r.(status := Released) else r
  }

  function ReleaseAll(rs: seq<Reservation>, o: nat, now: int): (r: seq<Reservation>)
    ensures |r| == |rs| && forall k :: 0 <= k < |r| ==> r[k] == Release(rs[k], o, now)
  {
    seq(|rs|, k requires 0 <= k < |rs| => Release(rs[k], o, now))
  }

  /** `cancel` releases the order's reservations that have not expired. */
  function Cancel(st: State, o: nat, now: int): Result<State, Error> {
    if o >= |st.orders| then Err(NotFound)
    else if st.orders[o].status != Draft && st.orders[o].status != Confirmed then Err(WrongState)
    else
      var rs := if st.orders[o].status == Confirmed then ReleaseAll(st.reservations, o, now) else st.reservations;
      Ok(SetStatus(st.(reservations := rs), o, Cancelled))
  }

  function FulfillLine(st: State, o: nat, k: nat): Result<State, Error>
    requires o < |st.orders| && k < |st.orders[o].lines|
  {
    var l := st.orders[o].lines[k];
    if l.reservation.None? then Err(NoReservation)
    else if l.reservation.value >= |st.reservations| || st.reservations[l.reservation.value].status != Active then
      Err(NoReservation)
    else
      var r := st.reservations[l.reservation.value];
      if OnHand(st.movements, r.item, r.warehouse) < r.quantity then Err(NotPhysicallyAvailable)
      else if exists m :: m in st.movements && m.ref == Some((o, k)) then Err(MovementExists)
      else Ok(st.(movements := st.movements + [Movement(r.item, r.warehouse, r.quantity, Out, Some((o, k)))],
                  reservations := st.reservations[l.reservation.value := r.(status := FulfilledReservation)]))
  }

  function FulfillLines(st: State, o: nat, n: nat): (r: Result<State, Error>)
    requires o < |st.orders| && n <= |st.orders[o].lines|
    ensures r.Ok? ==> r.value.orders == st.orders && r.value.negative == st.negative
  {
    if n == 0 then Ok(st)
    else
      var before :- FulfillLines(st, o, n - 1);
      FulfillLine(before, o, n - 1)
  }

  function Fulfill(st: State, o: nat): Result<State, Error> {
    if o >= |st.orders| || st.orders[o].warehouse !in st.negative then Err(NotFound)
    else if st.orders[o].status != Confirmed then Err(WrongState)
    else
      var done :- FulfillLines(st, o, |st.orders[o].lines|);
      Ok(SetStatus(done, o, Fulfilled))
  }

  datatype Op =
    | OpReceive(item: string, warehouse: string, quantity: int)
    | OpDraft(warehouse: string, lines: seq<(string, int)>)
    | OpConfirm(o: nat, now: int)
    | OpCancel(o: nat, now: int)
    | OpFulfill(o: nat)

  function Perform(st: State, op: Op): Result<State, Error> {
    match op
    case OpReceive(item, warehouse, quantity) => Receive(st, item, warehouse, quantity)
    case OpDraft(warehouse, lines) => CreateDraft(st, warehouse, lines)
    case OpConfirm(o, now) => Confirm(st, o, now)
    case OpCancel(o, now) => Cancel(st, o, now)
    case OpFulfill(o) => Fulfill(st, o)
  }

  function Step(st: State, op: Op): State {
    match Perform(st, op)
    case Ok(after) => after
    case Err(_) => st
  }

  function Run(st: State, ops: seq<Op>): State {
    if ops == [] then st else Step(Run(st, ops[..|ops| - 1]), ops[|ops| - 1])
  }

  // ---------------------------------------------------------------- the invariant

  /** In a warehouse without negative stock no more is reserved than there is. */
  ghost predicate Covered(st: State) {
    forall item, warehouse :: warehouse in st.negative && !st.negative[warehouse] ==>
      Reserved(st.reservations, item, warehouse) <= OnHand(st.movements, item, warehouse)
  }

  /** The line's own active reservation. */
  predicate LineHeld(st: State, o: nat, k: nat)
    requires o < |st.orders| && k < |st.orders[o].lines|
  {
    var l := st.orders[o].lines[k];
    && l.reservation.Some? && l.reservation.value < |st.reservations|
    && var r := st.reservations[l.reservation.value];
       r == Reservation(l.item, st.orders[o].warehouse, l.quantity, Active, (o, k), r.expires)
  }

  ghost predicate OrderInv(st: State, o: nat)
    requires o < |st.orders|
  {
    && (st.orders[o].status == Confirmed ==> forall k :: 0 <= k < |st.orders[o].lines| ==> LineHeld(st, o, k))
    && (forall l :: l in st.orders[o].lines ==> l.quantity > 0)
    && (st.orders[o].status != Fulfilled ==> forall m :: m in st.movements && m.ref.Some? ==> m.ref.value.0 != o)
  }

  ghost predicate Inv(st: State) {
    && Covered(st)
    && (forall o :: 0 <= o < |st.orders| ==> OrderInv(st, o))
    && (forall r :: r in st.reservations ==> r.quantity > 0 && r.owner.0 < |st.orders|)
    && (forall m :: m in st.movements && m.ref.Some? ==> m.ref.value.0 < |st.orders|)
  }

  lemma OnHandAdded(movements: seq<Movement>, m: Movement, item: string, warehouse: string)
    ensures OnHand(movements + [m], item, warehouse) == OnHand(movements, item, warehouse) + Effect(m, item, warehouse)
  {
    assert (movements + [m])[..|movements|] == movements;
  }

  lemma ReservedAdded(rs: seq<Reservation>, r: Reservation, item: string, warehouse: string)
    ensures Reserved(rs + [r], item, warehouse) == Reserved(rs, item, warehouse) + Held(r, item, warehouse)
  {
    assert (rs + [r])[..|rs|] == rs;
  }

  lemma {:induction false} ReservedUpdated(rs: seq<Reservation>, i: nat, r: Reservation, item: string,
                                           warehouse: string)
    requires i < |rs|
    ensures Reserved(rs[i := r], item, warehouse)
            == Reserved(rs, item, warehouse) - Held(rs[i], item, warehouse) + Held(r, item, warehouse)
  {
    var n := |rs| - 1;
    if i == n {
      assert rs[i := r][..n] == rs[..n];
    } else {
      assert rs[i := r][..n] == rs[..n][i := r];
      ReservedUpdated(rs[..n], i, r, item, warehouse);
    }
  }

  lemma {:induction false} OneIsHeld(rs: seq<Reservation>, i: nat, item: string, warehouse: string)
    requires i < |rs| && forall r :: r in rs ==> r.quantity > 0
    ensures 0 <= Held(rs[i], item, warehouse) <= Reserved(rs, item, warehouse)
  {
    var n := |rs| - 1;
    assert rs[n] in rs && rs[i] in rs && forall r :: r in rs[..n] ==> r in rs;
    if i < n {
      OneIsHeld(rs[..n], i, item, warehouse);
    } else {
      ReservedNonNegative(rs[..n], item, warehouse);
    }
  }

  lemma {:induction false} ReservedNonNegative(rs: seq<Reservation>, item: string, warehouse: string)
    requires forall r :: r in rs ==> r.quantity > 0
    ensures Reserved(rs, item, warehouse) >= 0
  {
    if rs != [] {
      assert rs[|rs| - 1] in rs;
      ReservedNonNegative(rs[..|rs| - 1], item, warehouse);
    }
  }

  // ---------------------------------------------------------------- fulfilling

  /** After the first n lines of a confirmed order were fulfilled. */
  ghost predicate Halfway(st: State, o: nat, n: nat)
    requires o < |st.orders| && n <= |st.orders[o].lines|
  {
    && Covered(st) && (forall r :: r in st.reservations ==> r.quantity > 0 && r.owner.0 < |st.orders|)
    && (forall k :: n <= k < |st.orders[o].lines| ==> LineHeld(st, o, k))
    && (forall m :: m in st.movements && m.ref.Some? && m.ref.value.0 == o ==> m.ref.value.1 < n)
    && (forall m :: m in st.movements && m.ref.Some? ==> m.ref.value.0 < |st.orders|)
  }

  /** The next line has its reservation, its stock and a movement reference of its own. */
  lemma LineIsReady(st: State, o: nat, n: nat)
    requires o < |st.orders| && n < |st.orders[o].lines| && Halfway(st, o, n)
    requires st.orders[o].warehouse in st.negative && !st.negative[st.orders[o].warehouse]
    ensures FulfillLine(st, o, n).Ok?
  {
    assert LineHeld(st, o, n);
    var i := st.orders[o].lines[n].reservation.value;
    var r := st.reservations[i];
    OneIsHeld(st.reservations, i, r.item, r.warehouse);
    hide OnHand, Reserved;
  }

  lemma FulfillOneLine(st: State, o: nat, n: nat)
    requires o < |st.orders| && n < |st.orders[o].lines| && Halfway(st, o, n) && FulfillLine(st, o, n).Ok?
    ensures Halfway(FulfillLine(st, o, n).value, o, n + 1)
    ensures forall p, k :: 0 <= p < |st.orders| && p != o && 0 <= k < |st.orders[p].lines| && LineHeld(st, p, k)
              ==> LineHeld(FulfillLine(st, o, n).value, p, k)
    ensures forall m :: m in FulfillLine(st, o, n).value.movements && m.ref.Some? && m.ref.value.0 != o ==>
              m in st.movements
  {
    assert LineHeld(st, o, n);
    var i := st.orders[o].lines[n].reservation.value;
    var r := st.reservations[i];
    OneIsHeld(st.reservations, i, r.item, r.warehouse);
    hide OnHand, Reserved;
    var after := FulfillLine(st, o, n).value;
    forall item, warehouse | warehouse in after.negative && !after.negative[warehouse]
      ensures Reserved(after.reservations, item, warehouse) <= OnHand(after.movements, item, warehouse)
    {
      OnHandAdded(st.movements, after.movements[|st.movements|], item, warehouse);
      ReservedUpdated(st.reservations, i, r.(status := FulfilledReservation), item, warehouse);
    }
    forall k | n < k < |st.orders[o].lines| ensures LineHeld(after, o, k) { assert LineHeld(st, o, k); }
    assert forall x :: x in after.reservations ==> x in st.reservations || x == r.(status := FulfilledReservation);
  }

  /** What fulfilling an order leaves alone. */
  ghost predicate OthersKept(st: State, after: State, o: nat) {
    && after.orders == st.orders && after.negative == st.negative
    && (forall p, k :: 0 <= p < |st.orders| && p != o && 0 <= k < |st.orders[p].lines| && LineHeld(st, p, k) ==>
        LineHeld(after, p, k))
    && (forall m :: m in after.movements && m.ref.Some? && m.ref.value.0 != o ==> m in st.movements)
  }

  lemma {:induction false} FulfillSomeLines(st: State, o: nat, n: nat)
    requires o < |st.orders| && n <= |st.orders[o].lines| && Halfway(st, o, 0) && FulfillLines(st, o, n).Ok?
    ensures Halfway(FulfillLines(st, o, n).value, o, n) && OthersKept(st, FulfillLines(st, o, n).value, o)
  {
    hide Halfway, LineHeld, FulfillLine;
    if n > 0 {
      FulfillSomeLines(st, o, n - 1);
      FulfillOneLine(FulfillLines(st, o, n - 1).value, o, n - 1);
    }
  }

  lemma {:induction false} LinesAreReady(st: State, o: nat, n: nat)
    requires o < |st.orders| && n <= |st.orders[o].lines| && Halfway(st, o, 0)
    requires st.orders[o].warehouse in st.negative && !st.negative[st.orders[o].warehouse]
    ensures FulfillLines(st, o, n).Ok?
  {
    hide Halfway, LineHeld, FulfillLine;
    if n > 0 {
      LinesAreReady(st, o, n - 1);
      FulfillSomeLines(st, o, n - 1);
      LineIsReady(FulfillLines(st, o, n - 1).value, o, n - 1);
    }
  }

  lemma ConfirmedIsReady(st: State, o: nat)
    requires Inv(st) && o < |st.orders| && st.orders[o].status == Confirmed
    ensures Halfway(st, o, 0)
  {
    assert OrderInv(st, o);
    hide Covered, LineHeld;
  }

  /** Main result: in a warehouse without negative stock, a confirmed order can always be fulfilled. */
  lemma FulfillNeverFails(st: State, o: nat)
    requires Inv(st) && o < |st.orders| && st.orders[o].status == Confirmed
    requires st.orders[o].warehouse in st.negative && !st.negative[st.orders[o].warehouse]
    ensures Fulfill(st, o).Ok?
  {
    ConfirmedIsReady(st, o);
    LinesAreReady(st, o, |st.orders[o].lines|);
  }

  lemma FulfillKeepsInv(st: State, o: nat)
    requires Inv(st) && Fulfill(st, o).Ok?
    ensures Inv(Fulfill(st, o).value)
  {
    ConfirmedIsReady(st, o);
    FulfillSomeLines(st, o, |st.orders[o].lines|);
    var done := FulfillLines(st, o, |st.orders[o].lines|).value;
    hide FulfillLines, Halfway;
    var after := Fulfill(st, o).value;
    assert Covered(after) by { CoveredHalfway(done, o, |st.orders[o].lines|); }
    HalfwayMembers(done, o, |st.orders[o].lines|);
    hide Covered;
    forall p | 0 <= p < |after.orders| ensures OrderInv(after, p) {
      assert OrderInv(st, p);
      if p != o {
        forall k | 0 <= k < |after.orders[p].lines| && after.orders[p].status == Confirmed
          ensures LineHeld(after, p, k)
        {
          assert LineHeld(done, p, k);
        }
      }
    }
  }

  lemma CoveredHalfway(st: State, o: nat, n: nat)
    requires o < |st.orders| && n <= |st.orders[o].lines| && Halfway(st, o, n)
    ensures Covered(SetStatus(st, o, Fulfilled))
  {
    hide OnHand, Reserved;
  }

  lemma HalfwayMembers(st: State, o: nat, n: nat)
    requires o < |st.orders| && n <= |st.orders[o].lines| && Halfway(st, o, n)
    ensures forall r :: r in st.reservations ==> r.quantity > 0 && r.owner.0 < |st.orders|
    ensures forall m :: m in st.movements && m.ref.Some? ==> m.ref.value.0 < |st.orders|
  {
    hide Covered, LineHeld;
  }

  // ---------------------------------------------------------------- confirming

  /** What reserving the first n lines of an order does. */
  ghost predicate ReservedSoFar(st: State, after: State, o: nat, n: nat)
    requires o < |st.orders| && n <= |st.orders[o].lines|
  {
    && |after.orders| == |st.orders| && after.negative == st.negative && after.movements == st.movements
    && (forall p :: 0 <= p < |st.orders| && p != o ==> after.orders[p] == st.orders[p])
    && after.orders[o].warehouse == st.orders[o].warehouse && after.orders[o].status == st.orders[o].status
    && |after.orders[o].lines| == |st.orders[o].lines|
    && (forall k :: 0 <= k < |st.orders[o].lines| ==>
          after.orders[o].lines[k].item == st.orders[o].lines[k].item
          && after.orders[o].lines[k].quantity == st.orders[o].lines[k].quantity)
    && |st.reservations| <= |after.reservations|
    && (forall i :: 0 <= i < |st.reservations| ==> after.reservations[i] == st.reservations[i])
    && (forall i :: |st.reservations| <= i < |after.reservations| ==>
        after.reservations[i].quantity > 0 && after.reservations[i].owner.0 == o)
    && (forall k :: 0 <= k < n ==> LineHeld(after, o, k))
    && (forall item, warehouse :: Reserved(after.reservations, item, warehouse)
          == Reserved(st.reservations, item, warehouse)
             + if warehouse == st.orders[o].warehouse then Needed(st.orders[o].lines[..n], item) else 0)
  }

  lemma {:induction false} ReserveSomeLines(st: State, o: nat, n: nat, now: int)
    requires o < |st.orders| && n <= |st.orders[o].lines| && forall l :: l in st.orders[o].lines ==> l.quantity > 0
    ensures ReservedSoFar(st, ReserveLines(st, o, n, now), o, n)
  {
    var after := ReserveLines(st, o, n, now);
    if n > 0 {
      ReserveSomeLines(st, o, n - 1, now);
      var before := ReserveLines(st, o, n - 1, now);
      hide ReserveLines, Reserved;
      ReserveOneLine(st, before, o, n - 1, now);
    }
  }

  lemma ReserveOneLine(st: State, before: State, o: nat, n: nat, now: int)
    requires o < |st.orders| && n < |st.orders[o].lines| && st.orders[o].lines[n].quantity > 0
    requires ReservedSoFar(st, before, o, n)
    ensures ReservedSoFar(st, ReserveLine(before, o, n, now), o, n + 1)
  {
    var after := ReserveLine(before, o, n, now);
    var l := st.orders[o].lines[n];
    assert st.orders[o].lines[..n + 1][..n] == st.orders[o].lines[..n];
    hide Reserved;
    forall item, warehouse
      ensures Reserved(after.reservations, item, warehouse)
           == Reserved(st.reservations, item, warehouse)
              + if warehouse == st.orders[o].warehouse then Needed(st.orders[o].lines[..n + 1], item) else 0
    {
      ReservedAdded(before.reservations, after.reservations[|before.reservations|], item, warehouse);
    }
    forall k | 0 <= k < n ensures LineHeld(after, o, k) { assert LineHeld(before, o, k); }
    assert LineHeld(after, o, n);
    hide LineHeld, Needed;
  }

  lemma {:induction false} NotNeeded(lines: seq<Line>, item: string)
    requires forall l :: l in lines ==> l.item != item
    ensures Needed(lines, item) == 0
  {
    if lines != [] {
      assert lines[|lines| - 1] in lines;
      NotNeeded(lines[..|lines| - 1], item);
    }
  }

  lemma EnoughForAll(st: State, o: nat, item: string)
    requires o < |st.orders| && Enough(st, o) && Covered(st)
    requires st.orders[o].warehouse in st.negative && !st.negative[st.orders[o].warehouse]
    ensures Reserved(st.reservations, item, st.orders[o].warehouse) + Needed(st.orders[o].lines, item)
            <= OnHand(st.movements, item, st.orders[o].warehouse)
  {
    if l :| l in st.orders[o].lines && l.item == item {
    } else {
      NotNeeded(st.orders[o].lines, item);
    }
  }

  lemma ConfirmKeepsInv(st: State, o: nat, now: int)
    requires Inv(st) && Confirm(st, o, now).Ok?
    ensures Inv(Confirm(st, o, now).value)
  {
    var after := Confirm(st, o, now).value;
    var lines := st.orders[o].lines;
    assert OrderInv(st, o);
    ReserveSomeLines(st, o, |lines|, now);
    assert lines[..|lines|] == lines;
    var done := ReserveLines(st, o, |lines|, now);
    hide ReserveLines, Reserved, OnHand, Needed;
    forall item, warehouse | warehouse in after.negative && !after.negative[warehouse]
      ensures Reserved(after.reservations, item, warehouse) <= OnHand(after.movements, item, warehouse)
    {
      if warehouse == st.orders[o].warehouse { EnoughForAll(st, o, item); }
    }
    assert Covered(after);
    hide Covered, Enough;
    forall p | 0 <= p < |after.orders| ensures OrderInv(after, p) {
      assert OrderInv(st, p);
      if p == o {
        assert forall k :: 0 <= k < |lines| ==>
                 after.orders[o].lines[k].quantity == lines[k].quantity && lines[k] in lines;
      } else {
        forall k | 0 <= k < |after.orders[p].lines| && after.orders[p].status == Confirmed
          ensures LineHeld(after, p, k)
        {
          assert LineHeld(st, p, k);
        }
      }
      forall k | 0 <= k < |after.orders[o].lines| ensures LineHeld(after, o, k) { assert LineHeld(done, o, k); }
    }
    hide LineHeld, OrderInv;
    forall r | r in after.reservations ensures r.quantity > 0 && r.owner.0 < |after.orders| {
      var i :| 0 <= i < |after.reservations| && after.reservations[i] == r;
      if i < |st.reservations| { assert st.reservations[i] in st.reservations; }
    }
  }

  // ---------------------------------------------------------------- the other steps

  lemma {:induction false} ReleasedIsLess(rs: seq<Reservation>, o: nat, now: int, item: string, warehouse: string)
    requires forall r :: r in rs ==> r.quantity > 0
    ensures Reserved(ReleaseAll(rs, o, now), item, warehouse) <= Reserved(rs, item, warehouse)
  {
    if rs != [] {
      var n := |rs| - 1;
      assert rs[n] in rs;
      assert ReleaseAll(rs, o, now)[..n] == ReleaseAll(rs[..n], o, now);
      ReleasedIsLess(rs[..n], o, now, item, warehouse);
    }
  }

  lemma CancelKeepsInv(st: State, o: nat, now: int)
    requires Inv(st) && Cancel(st, o, now).Ok?
    ensures Inv(Cancel(st, o, now).value)
  {
    var after := Cancel(st, o, now).value;
    hide Reserved, OnHand;
    forall item, warehouse | warehouse in after.negative && !after.negative[warehouse]
      ensures Reserved(after.reservations, item, warehouse) <= OnHand(after.movements, item, warehouse)
    {
      ReleasedIsLess(st.reservations, o, now, item, warehouse);
    }
    hide Covered;
    forall p | 0 <= p < |after.orders| ensures OrderInv(after, p) {
      assert OrderInv(st, p);
      forall k | 0 <= k < |after.orders[p].lines| && after.orders[p].status == Confirmed ensures LineHeld(after, p, k) {
        assert LineHeld(st, p, k);
      }
    }
    forall r | r in after.reservations ensures r.quantity > 0 && r.owner.0 < |after.orders| {
      var i :| 0 <= i < |after.reservations| && after.reservations[i] == r;
      assert st.reservations[i] in st.reservations;
    }
  }

  lemma ReceiveKeepsInv(st: State, item: string, warehouse: string, quantity: int)
    requires Inv(st) && Receive(st, item, warehouse, quantity).Ok?
    ensures Inv(Receive(st, item, warehouse, quantity).value)
  {
    var after := Receive(st, item, warehouse, quantity).value;
    hide Reserved, OnHand;
    forall i, w | w in after.negative && !after.negative[w]
      ensures Reserved(after.reservations, i, w) <= OnHand(after.movements, i, w)
    {
      OnHandAdded(st.movements, after.movements[|st.movements|], i, w);
    }
    hide Covered;
    forall p | 0 <= p < |after.orders| ensures OrderInv(after, p) {
      assert OrderInv(st, p);
      forall k | 0 <= k < |after.orders[p].lines| && after.orders[p].status == Confirmed ensures LineHeld(after, p, k) {
        assert LineHeld(st, p, k);
      }
    }
  }

  lemma DraftKeepsInv(st: State, warehouse: string, lines: seq<(string, int)>)
    requires Inv(st) && CreateDraft(st, warehouse, lines).Ok?
    ensures Inv(CreateDraft(st, warehouse, lines).value)
  {
    var after := CreateDraft(st, warehouse, lines).value;
    assert Covered(after) by { hide Reserved, OnHand; }
    hide Covered;
    forall p | 0 <= p < |after.orders| ensures OrderInv(after, p) {
      if p < |st.orders| {
        assert OrderInv(st, p);
        forall k | 0 <= k < |after.orders[p].lines| && after.orders[p].status == Confirmed
          ensures LineHeld(after, p, k)
        {
          assert LineHeld(st, p, k);
        }
      } else {
        assert forall k :: 0 <= k < |lines| ==> lines[k] in lines;
      }
    }
  }

  // ---------------------------------------------------------------- every run

  /** Empty tables; any warehouse may or may not allow negative stock. */
  ghost predicate Start(st: State) { st.orders == [] && st.reservations == [] && st.movements == [] }

  lemma StartIsInv(st: State)
    requires Start(st)
    ensures Inv(st)
  {
  }

  lemma StepKeepsInv(st: State, op: Op)
    requires Inv(st)
    ensures Inv(Step(st, op))
  {
    hide Inv, Receive, CreateDraft, Confirm, Cancel, Fulfill;
    if Perform(st, op).Ok? {
      match op
      case OpReceive(item, warehouse, quantity) => ReceiveKeepsInv(st, item, warehouse, quantity);
      case OpDraft(warehouse, lines) => DraftKeepsInv(st, warehouse, lines);
      case OpConfirm(o, now) => ConfirmKeepsInv(st, o, now);
      case OpCancel(o, now) => CancelKeepsInv(st, o, now);
      case OpFulfill(o) => FulfillKeepsInv(st, o);
    }
  }

  lemma NegativeKept(st: State, op: Op)
    ensures Step(st, op).negative == st.negative
  {
    hide Enough, ReserveLine, FulfillLine, LineHeld;
  }

  lemma {:induction false} RunKeepsInv(st: State, ops: seq<Op>)
    requires Start(st)
    ensures Inv(Run(st, ops)) && Run(st, ops).negative == st.negative
  {
    hide Inv, Step;
    if ops == [] {
      StartIsInv(st);
    } else {
      RunKeepsInv(st, ops[..|ops| - 1]);
      StepKeepsInv(Run(st, ops[..|ops| - 1]), ops[|ops| - 1]);
      NegativeKept(Run(st, ops[..|ops| - 1]), ops[|ops| - 1]);
    }
  }

  /** Main result, over every run of whole receipts, drafts, confirmations, cancellations and fulfillments, for
      each warehouse without negative stock, whatever the others allow: active reservations never exceed
      the stock of the ledger, and its confirmed orders can be fulfilled whenever it is tried. */
  lemma NeverOversold(st: State, ops: seq<Op>, item: string, warehouse: string, o: nat)
    requires Start(st)
    ensures var now := Run(st, ops);
            warehouse in st.negative && !st.negative[warehouse] ==>
              && 0 <= Reserved(now.reservations, item, warehouse) <= OnHand(now.movements, item, warehouse)
              && (o < |now.orders| && now.orders[o].status == Confirmed && now.orders[o].warehouse == warehouse ==>
                  Fulfill(now, o).Ok?)
  {
    RunKeepsInv(st, ops);
    var now := Run(st, ops);
    if warehouse in st.negative && !st.negative[warehouse] {
      ReservedNonNegative(now.reservations, item, warehouse);
      assert Covered(now);
      hide Run, Inv, Fulfill, Reserved, OnHand;
      if o < |now.orders| && now.orders[o].status == Confirmed && now.orders[o].warehouse == warehouse {
        FulfillNeverFails(now, o);
      }
    }
  }

  /** A cancelled order gives back everything it holds if and only if none of its reservations has
      expired: an expired one stays active. */
  lemma CancelReleasesAllIff(st: State, o: nat, now: int)
    requires Inv(st) && o < |st.orders| && st.orders[o].status == Confirmed
    ensures (forall r :: r in Cancel(st, o, now).value.reservations && r.owner.0 == o ==> r.status != Active)
            <==> (forall r :: r in st.reservations && r.owner.0 == o && r.status == Active ==> r.expires > now)
  {
    hide Inv;
    var after := Cancel(st, o, now).value;
    assert forall i :: 0 <= i < |st.reservations| ==> after.reservations[i] == Release(st.reservations[i], o, now);
    assert forall i :: 0 <= i < |st.reservations| ==>
             after.reservations[i] in after.reservations && st.reservations[i] in st.reservations;
  }
}
