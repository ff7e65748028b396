/** Shipments and the fulfillments that mirror them: seller, logistics and carrier steps in any order. */
module Delivery {
  import opened Outcomes

  datatype Status = Ready | PickedUp | InTransit | OutForDelivery | Delivered | Failed | Cancelled | Returned

  /** `_ALLOWED` of the logistics engine. */
  predicate Allowed(from: Status, to: Status) {
    match from
    case Ready => to in {PickedUp, Cancelled}
    case PickedUp => to in {InTransit, Failed}
    case InTransit => to in {OutForDelivery, Failed, Returned}
    case OutForDelivery => to in {Delivered, Failed, Returned}
    case Failed => to in {PickedUp, Cancelled, Returned}
    case _ => false
  }

  /** The reference that a fulfillment gives its shipment, or one chosen by the seller. */
  datatype Reference = Of(fulfillment: nat) | Named(name: string)

  datatype Shipment = Shipment(reference: Reference, status: Status, tracking: Option<string>)

  /** An empty number counts as none. */
  predicate Tracked(s: Shipment) { s.tracking.Some? && s.tracking.value != "" }

  datatype Event = Event(id: string, shipment: nat, status: Status)

  datatype FulfillmentStatus = Pending | Assigned | At(status: Status)

  /** `_ALLOWED` of the fulfillment engine. */
  predicate Permitted(from: FulfillmentStatus, to: FulfillmentStatus) {
    match from
    case Pending => to in {Assigned, At(Cancelled)}
    case Assigned => to in {At(Ready), At(Cancelled)}
    case At(Ready) => to in {At(PickedUp), At(Delivered), At(Cancelled)}
    case At(PickedUp) => to in {At(InTransit), At(OutForDelivery), At(Delivered), At(Failed), At(Returned)}
    case At(InTransit) => to in {At(OutForDelivery), At(Delivered), At(Failed), At(Returned)}
    case At(OutForDelivery) => to in {At(Delivered), At(Failed), At(Returned)}
    case At(Failed) => to in {At(Ready), At(Cancelled), At(Returned)}
    case _ => false
  }

  /** A fulfillment of a seller order. */
  datatype Fulfillment = Fulfillment(order: nat, pickup: bool, status: FulfillmentStatus, shipment: Option<nat>)

  predicate Active(x: Fulfillment) { x.status !in {At(Delivered), At(Returned), At(Cancelled)} }

  /** A carrier's event: the carrier's name for it, and the hash of its payload. */
  datatype CarrierEvent = CarrierEvent(id: string, hash: string)

  datatype State = State(shipments: seq<Shipment>, events: seq<Event>, fulfillments: seq<Fulfillment>,
                         carrier: seq<CarrierEvent>)

  datatype Error =
    | NoEventId | NotFound | InvalidTransition | NoTracking | NumberRequired | NumberIsFixed | NumberTaken
    | ReferenceTaken
    | Busy | OrderNotReady | NoShipment | NoteRequired | NoSuchUse | NoLinkage | NotFulfilled | NoAddress | BadRouting
    | OtherPayload | Unsupported | BadSignature

  /** The commerce order behind a seller order, once a confirmed one has been fulfilled. */
  datatype Sale = NoSale | Unfulfilled | Fulfilled

  function FindEvent(events: seq<Event>, id: string): (k: nat)
    ensures k <= |events|
    ensures k < |events| ==> events[k].id == id
    ensures k == |events| ==> forall e :: e in events ==> e.id != id
  {
    if events == [] then 0 else if events[0].id == id then 0 else 1 + FindEvent(events[1..], id)
  }

  // ---------------------------------------------------------------- logistics

  /** `transition`: a known event id changes nothing, whatever it was used for. */
  function Move(st: State, s: nat, to: Status, id: string): Result<State, Error> {
    if id == "" then Err(NoEventId)
    else if s >= |st.shipments| then Err(NotFound)
    else if FindEvent(st.events, id) < |st.events| then Ok(st)
    else if !Allowed(st.shipments[s].status, to) then Err(InvalidTransition)
    else if to in {PickedUp, InTransit, OutForDelivery} && !Tracked(st.shipments[s]) then Err(NoTracking)
    else Ok(st.(shipments := st.shipments[s := st.shipments[s].(status := to)],
                events := st.events + [Event(id, s, to)]))
  }

  /** Does a shipment other than the one at `except` have the number? */
  predicate Taken(shipments: seq<Shipment>, number: string, except: nat) {
    exists t :: 0 <= t < |shipments| && t != except && shipments[t].tracking == Some(number)
  }

  predicate HasReference(shipments: seq<Shipment>, reference: Reference) {
    exists t :: 0 <= t < |shipments| && shipments[t].reference == reference
  }

  function AssignTracking(st: State, s: nat, number: string): Result<State, Error> {
    if number == "" then Err(NumberRequired)
    else if s >= |st.shipments| then Err(NotFound)
    else if st.shipments[s].status in {Delivered, Cancelled, Returned} then Err(InvalidTransition)
    else if Tracked(st.shipments[s]) && st.shipments[s].tracking != Some(number) then Err(NumberIsFixed)
    else if Taken(st.shipments, number, s) then Err(NumberTaken)
    else Ok(st.(shipments := st.shipments[s := st.shipments[s].(tracking := Some(number))]))
  }

  /** `create_shipment` of the logistics engine; `routed` says that the routing fields are there and agree
      with the order. */
  function PlaceShipment(st: State, reference: Reference, sale: Sale, routed: bool,
                         number: Option<string>): Result<State, Error>
  {
    if !routed then Err(BadRouting)
    else if sale == NoSale then Err(NotFound)
    else if sale == Unfulfilled then Err(NotFulfilled)
    else if HasReference(st.shipments, reference) then Err(ReferenceTaken)
    else if number.Some? && Taken(st.shipments, number.value, |st.shipments|) then Err(NumberTaken)
    else Ok(st.(shipments := st.shipments + [Shipment(reference, Ready, number)]))
  }

  // ---------------------------------------------------------------- fulfillment

  /** The first active fulfillment of the seller order, or the number of fulfillments. */
  function FindActive(fulfillments: seq<Fulfillment>, order: nat): (k: nat)
    ensures k <= |fulfillments|
    ensures k < |fulfillments| ==> fulfillments[k].order == order && Active(fulfillments[k])
    ensures forall j :: 0 <= j < k ==> fulfillments[j].order != order || !Active(fulfillments[j])
  {
    if fulfillments == [] then 0
    else if fulfillments[0].order == order && Active(fulfillments[0]) then 0
    else 1 + FindActive(fulfillments[1..], order)
  }

  /** `create`: a pending fulfillment of the order only changes its method. */
  function CreateFulfillment(st: State, order: nat, pickup: bool, orderReady: bool): Result<State, Error> {
    if !orderReady then Err(OrderNotReady)
    else
      var k := FindActive(st.fulfillments, order);
      if k == |st.fulfillments| then
        Ok(st.(fulfillments := st.fulfillments + [Fulfillment(order, pickup, Pending, None)]))
      else if st.fulfillments[k].status != Pending then Err(Busy)
      else Ok(st.(fulfillments := st.fulfillments[k := st.fulfillments[k].(pickup := pickup)]))
  }

  /** The commerce order that the fulfillment's seller order leads to, and what is known of its route. */
  datatype Route = Route(linked: bool, sale: Sale, address: bool, routed: bool)

  /** What `create_shipment` of the fulfillment engine checks before the commerce order is fulfilled. */
  function CheckShip(st: State, f: nat, route: Route): Option<Error> {
    if f >= |st.fulfillments| then Some(NotFound)
    else
      var x := st.fulfillments[f];
      if x.status != Assigned && x.status != At(Ready) then Some(Busy)
      else if x.pickup then Some(NoSuchUse)
      else if !route.linked then Some(NoLinkage)
      else if route.sale == NoSale then Some(NotFound)
      else if route.sale == Unfulfilled then Some(NotFulfilled)
      else None
  }

  /** The shipment of a fulfillment is placed and committed. */
  function PlaceFor(st: State, f: nat, address: bool, routed: bool, number: Option<string>): Result<State, Error> {
    if !address then Err(NoAddress) else PlaceShipment(st, Of(f), Fulfilled, routed, number)
  }

  /** The last write of the call: a status that it did not change is not written. */
  function Link(st: State, f: nat, was: FulfillmentStatus, s: nat): State
    requires f < |st.fulfillments|
  {
    var x := st.fulfillments[f];
    var status := if was == At(Ready) then x.status else At(Ready);
    st.(fulfillments := st.fulfillments[f := x.(shipment := Some(s), status := status)])
  }

  /** `create_shipment` of the fulfillment engine, when nothing comes between its commits. */
  function CreateShipment(st: State, f: nat, route: Route, number: Option<string>): Result<State, Error> {
    var refused := CheckShip(st, f, route);
    if refused.Some? then Err(refused.value)
    else
      var placed :- PlaceFor(st, f, route.address, route.routed, number);
      Ok(Link(placed, f, st.fulfillments[f].status, |st.shipments|))
  }

  predicate Physical(s: FulfillmentStatus) { s in {At(PickedUp), At(InTransit), At(OutForDelivery), At(Delivered)} }

  /** The shipment is moved, and committed, before the fulfillment is written. */
  predicate MovesShipment(st: State, f: nat, to: FulfillmentStatus)
    requires f < |st.fulfillments|
  {
    Physical(to) && !st.fulfillments[f].pickup && st.fulfillments[f].shipment.Some?
  }

  /** `transition` of the fulfillment up to the move of the shipment, which decides. */
  function BeginAdvance(st: State, f: nat, to: FulfillmentStatus, id: string, note: bool,
                        orderReady: bool): Result<State, Error>
  {
    if f >= |st.fulfillments| then Err(NotFound)
    else
      var x := st.fulfillments[f];
      if !Permitted(x.status, to) then Err(InvalidTransition)
      else if !orderReady then Err(OrderNotReady)
      else if Physical(to) && !x.pickup && x.shipment.None? then Err(NoShipment)
      else if to == At(Delivered) && x.pickup && !note then Err(NoteRequired)
      else if MovesShipment(st, f, to) then Move(st, x.shipment.value, to.status, id)
      else Ok(st)
  }

  /** The rest of it. */
  function WriteStatus(st: State, f: nat, to: FulfillmentStatus): State
    requires f < |st.fulfillments|
  {
    st.(fulfillments := st.fulfillments[f := st.fulfillments[f].(status := to)])
  }

  /** A transition that is not allowed is taken for a repeat when its event is the shipment's. */
  predicate Repeats(st: State, f: nat, to: FulfillmentStatus, id: string) {
    var k := FindEvent(st.events, id);
    && f < |st.fulfillments| && !Permitted(st.fulfillments[f].status, to)
    && k < |st.events| && st.fulfillments[f].shipment == Some(st.events[k].shipment)
  }

  /** `transition` of the fulfillment, when nothing comes between its commits. */
  function Advance(st: State, f: nat, to: FulfillmentStatus, id: string, note: bool,
                   orderReady: bool): Result<State, Error>
  {
    if Repeats(st, f, to, id) then Ok(st)
    else
      var moved :- BeginAdvance(st, f, to, id, note, orderReady);
      Ok(WriteStatus(moved, f, to))
  }

  // ---------------------------------------------------------------- carriers

  function FindCarrier(events: seq<CarrierEvent>, id: string): (k: nat)
    ensures k <= |events|
    ensures k < |events| ==> events[k].id == id
  {
    if events == [] then 0 else if events[0].id == id then 0 else 1 + FindCarrier(events[1..], id)
  }

  /** `ingest_event` up to the move of the shipment; id is the carrier's event id, prefixed by the carrier. */
  function BeginIngest(st: State, s: nat, to: Option<Status>, id: string, hash: string,
                       signed: bool): Result<State, Error>
  {
    if id == "" then Err(NoEventId)
    else if !signed then Err(BadSignature)
    else if s >= |st.shipments| then Err(NotFound)
    else
      var k := FindCarrier(st.carrier, id);
      if k < |st.carrier| then if st.carrier[k].hash == hash then Ok(st) else Err(OtherPayload)
      else if to.None? then Err(Unsupported)
      else Move(st, s, to.value, id)
  }

  /** The carrier's event is recorded, once. */
  function Record(st: State, id: string, hash: string): State {
    if FindCarrier(st.carrier, id) < |st.carrier| then st else st.(carrier := st.carrier + [CarrierEvent(id, hash)])
  }

  /** `ingest_event`, when nothing comes between its commits. */
  function Ingest(st: State, s: nat, to: Option<Status>, id: string, hash: string, signed: bool): Result<State, Error> {
    var moved :- BeginIngest(st, s, to, id, hash, signed);
    Ok(Record(moved, id, hash))
  }

  const EMPTY := State([], [], [], [])

  // ---------------------------------------------------------------- the event log of a shipment

  /** Where a shipment stands after the given events, or none when a step was not allowed. */
  function Replay(events: seq<Event>, s: nat): Option<Status> {
    if events == [] then Some(Ready)
    else
      var e := events[|events| - 1];
      var before := Replay(events[..|events| - 1], s);
      if e.shipment != s then before
      else if before.Some? && Allowed(before.value, e.status) then Some(e.status)
      else None
  }

  lemma ReplayOneMore(events: seq<Event>, e: Event, s: nat)
    ensures Replay(events + [e], s) ==
      if e.shipment != s then Replay(events, s)
      else if Replay(events, s).Some? && Allowed(Replay(events, s).value, e.status) then Some(e.status) else None
  {
    assert (events + [e])[..|events|] == events;
  }

  ghost predicate LogInv(st: State) {
    && (forall s :: 0 <= s < |st.shipments| ==> Replay(st.events, s) == Some(st.shipments[s].status))
    && (forall e :: e in st.events ==> e.shipment < |st.shipments|)
    && (forall i, j :: 0 <= i < j < |st.events| ==> st.events[i].id != st.events[j].id)
  }

  lemma {:induction false} NoEventsYet(events: seq<Event>, s: nat)
    requires forall e :: e in events ==> e.shipment != s
    ensures Replay(events, s) == Some(Ready)
  {
    if events != [] {
      assert events[|events| - 1] in events;
      NoEventsYet(events[..|events| - 1], s);
    }
  }

  lemma MoveKeepsLog(st: State, s: nat, to: Status, id: string)
    requires LogInv(st) && Move(st, s, to, id).Ok?
    ensures LogInv(Move(st, s, to, id).value)
    ensures Move(st, s, to, id).value.fulfillments == st.fulfillments
    ensures |Move(st, s, to, id).value.shipments| == |st.shipments|
  {
    var after := Move(st, s, to, id).value;
    if after != st {
      var e := Event(id, s, to);
      forall t | 0 <= t < |after.shipments| ensures Replay(after.events, t) == Some(after.shipments[t].status) {
        ReplayOneMore(st.events, e, t);
      }
      hide Replay, Allowed;
      assert forall x :: x in after.events ==> x in st.events || x == e;
      assert forall i :: 0 <= i < |st.events| ==> st.events[i] in st.events && st.events[i].id != id;
    }
  }

  lemma PlaceKeepsLog(st: State, reference: Reference, sale: Sale, routed: bool, number: Option<string>)
    requires LogInv(st) && PlaceShipment(st, reference, sale, routed, number).Ok?
    ensures LogInv(PlaceShipment(st, reference, sale, routed, number).value)
  {
    NoEventsYet(st.events, |st.shipments|);
    hide Replay, HasReference, Taken;
  }

  // ---------------------------------------------------------------- what stays unique

  /** Distinct references and numbers, a number for every shipment that has left, and the shipment of a
      fulfillment is the one placed for it. */
  ghost predicate RowsInv(st: State) {
    && (forall i, j :: 0 <= i < j < |st.shipments| ==> st.shipments[i].reference != st.shipments[j].reference)
    && (forall i, j :: 0 <= i < j < |st.shipments| && st.shipments[i].tracking.Some? ==>
          st.shipments[i].tracking != st.shipments[j].tracking)
    && (forall i :: 0 <= i < |st.shipments| && st.shipments[i].status !in {Ready, Cancelled} ==>
          Tracked(st.shipments[i]))
    && forall f :: 0 <= f < |st.fulfillments| ==> Owned(st, f)
  }

  predicate Owned(st: State, f: nat)
    requires f < |st.fulfillments|
  {
    var s := st.fulfillments[f].shipment;
    s.Some? ==> s.value < |st.shipments| && st.shipments[s.value].reference == Of(f)
  }

  /** No shipment is lost or renamed, and a tracking number that is given is never changed. */
  ghost predicate NumbersStay(st: State, after: State) {
    && |st.shipments| <= |after.shipments|
    && forall i :: 0 <= i < |st.shipments| ==>
         && after.shipments[i].reference == st.shipments[i].reference
         && (Tracked(st.shipments[i]) ==> after.shipments[i].tracking == st.shipments[i].tracking)
         && (st.shipments[i].status == Delivered ==> after.shipments[i].status == Delivered)
  }

  ghost predicate OneActive(fulfillments: seq<Fulfillment>) {
    forall i, j :: 0 <= i < j < |fulfillments| && fulfillments[i].order == fulfillments[j].order ==>
      !Active(fulfillments[i]) || !Active(fulfillments[j])
  }

  lemma MoveKeepsRows(st: State, s: nat, to: Status, id: string)
    requires RowsInv(st) && Move(st, s, to, id).Ok?
    ensures var after := Move(st, s, to, id).value;
            && RowsInv(after) && NumbersStay(st, after)
            && after.fulfillments == st.fulfillments && after.carrier == st.carrier
  {
    hide FindEvent;
    var after := Move(st, s, to, id).value;
    forall f | 0 <= f < |after.fulfillments| ensures Owned(after, f) { assert Owned(st, f); }
  }

  lemma PlaceKeepsRows(st: State, reference: Reference, sale: Sale, routed: bool, number: Option<string>)
    requires RowsInv(st) && PlaceShipment(st, reference, sale, routed, number).Ok?
    ensures var after := PlaceShipment(st, reference, sale, routed, number).value;
            RowsInv(after) && NumbersStay(st, after)
  {
    var after := PlaceShipment(st, reference, sale, routed, number).value;
    forall f | 0 <= f < |after.fulfillments| ensures Owned(after, f) { assert Owned(st, f); }
  }

  lemma TrackKeepsRows(st: State, s: nat, number: string)
    requires RowsInv(st) && AssignTracking(st, s, number).Ok?
    ensures var after := AssignTracking(st, s, number).value;
            RowsInv(after) && NumbersStay(st, after)
  {
    var after := AssignTracking(st, s, number).value;
    forall f | 0 <= f < |after.fulfillments| ensures Owned(after, f) { assert Owned(st, f); }
  }

  /** A delivery is the last event of a shipment. */
  lemma {:induction false} DeliveredIsLast(events: seq<Event>, k: nat)
    requires k < |events| && events[k].status == Delivered && Replay(events, events[k].shipment).Some?
    ensures Replay(events, events[k].shipment) == Some(Delivered)
  {
    var n := |events| - 1;
    if k < n { DeliveredIsLast(events[..n], k); }
  }
}
