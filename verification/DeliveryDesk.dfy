/** Logistics, fulfillment and carrier intake, with their tables as fields that are updated in place. */
module DeliveryDesk {
  import opened Delivery
  import opened Outcomes

  class Service {
    var shipments: seq<Shipment>
    var events: seq<Event>
    var fulfillments: seq<Fulfillment>
    var carrier: seq<CarrierEvent>

    constructor ()
      ensures Snapshot() == EMPTY
    {
      shipments, events, fulfillments, carrier := [], [], [], [];
    }

    function Snapshot(): State
      reads this
    {
      State(shipments, events, fulfillments, carrier)
    }

    /** Is the event id in use? The first event with it, or the number of events. */
    method EventIndex(id: string) returns (k: nat)
      ensures k == FindEvent(events, id)
    {
      k := 0;
      while k < |events|
        invariant k <= |events| && FindEvent(events, id) == k + FindEvent(events[k..], id)
      {
        if events[k].id == id { return; }
        assert events[k..][1..] == events[k + 1..];
        k := k + 1;
      }
    }

    method MoveShipment(s: nat, to: Status, id: string) returns (error: Option<Error>)
      modifies this`shipments, this`events
      ensures Answer(error, Snapshot(), old(Move(Snapshot(), s, to, id)), old(Snapshot()))
    {
      if id == "" { return Some(NoEventId); }
      if s >= |shipments| { return Some(NotFound); }
      var k := EventIndex(id);
      if k < |events| { return None; }
      if !Allowed(shipments[s].status, to) { return Some(InvalidTransition); }
      if to in {PickedUp, InTransit, OutForDelivery} && !Tracked(shipments[s]) { return Some(NoTracking); }
      events := events + [Event(id, s, to)];
      shipments := shipments[s := shipments[s].(status := to)];
      error := None;
    }

    /** Does a shipment other than the one at `except` have the number? */
    method NumberInUse(number: string, except: nat) returns (taken: bool)
      ensures taken == Taken(shipments, number, except)
    {
      for t := 0 to |shipments|
        invariant !Taken(shipments[..t], number, except)
      {
        if t != except && shipments[t].tracking == Some(number) { return true; }
      }
      taken := false;
    }

    method ReferenceInUse(reference: Reference) returns (taken: bool)
      ensures taken == HasReference(shipments, reference)
    {
      for t := 0 to |shipments|
        invariant !HasReference(shipments[..t], reference)
      {
        if shipments[t].reference == reference { return true; }
      }
      taken := false;
    }

    method Track(s: nat, number: string) returns (error: Option<Error>)
      modifies this`shipments
      ensures Answer(error, Snapshot(), old(AssignTracking(Snapshot(), s, number)), old(Snapshot()))
    {
      if number == "" { return Some(NumberRequired); }
      if s >= |shipments| { return Some(NotFound); }
      if shipments[s].status in {Delivered, Cancelled, Returned} { return Some(InvalidTransition); }
      if Tracked(shipments[s]) && shipments[s].tracking != Some(number) { return Some(NumberIsFixed); }
      var taken := NumberInUse(number, s);
      if taken { return Some(NumberTaken); }
      shipments := shipments[s := shipments[s].(tracking := Some(number))];
      error := None;
    }

    /** The seller's own shipment, or the one of a fulfillment. */
    method Place(reference: Reference, sale: Sale, routed: bool, number: Option<string>) returns (error: Option<Error>)
      modifies this`shipments
      ensures Answer(error, Snapshot(), old(PlaceShipment(Snapshot(), reference, sale, routed, number)),
                     old(Snapshot()))
    {
      if !routed { return Some(BadRouting); }
      if sale == NoSale { return Some(NotFound); }
      if sale == Unfulfilled { return Some(NotFulfilled); }
      var used := ReferenceInUse(reference);
      if used { return Some(ReferenceTaken); }
      if number.Some? {
        var taken := NumberInUse(number.value, |shipments|);
        if taken { return Some(NumberTaken); }
      }
      shipments := shipments + [Shipment(reference, Ready, number)];
      error := None;
    }

    /** The active fulfillment of the seller order, or the number of fulfillments. */
    method ActiveIndex(order: nat) returns (k: nat)
      ensures k == FindActive(fulfillments, order)
    {
      k := 0;
      while k < |fulfillments|
        invariant k <= |fulfillments| && FindActive(fulfillments, order) == k + FindActive(fulfillments[k..], order)
      {
        if fulfillments[k].order == order && Active(fulfillments[k]) { return; }
        assert fulfillments[k..][1..] == fulfillments[k + 1..];
        k := k + 1;
      }
    }

    method Create(order: nat, pickup: bool, orderReady: bool) returns (error: Option<Error>)
      modifies this`fulfillments
      ensures Answer(error, Snapshot(), old(CreateFulfillment(Snapshot(), order, pickup, orderReady)), old(Snapshot()))
    {
      if !orderReady { return Some(OrderNotReady); }
      var k := ActiveIndex(order);
      if k < |fulfillments| {
        if fulfillments[k].status != Pending { return Some(Busy); }
        fulfillments := fulfillments[k := fulfillments[k].(pickup := pickup)];
      } else {
        fulfillments := fulfillments + [Fulfillment(order, pickup, Pending, None)];
      }
      error := None;
    }

    method CheckShipping(f: nat, route: Route) returns (error: Option<Error>)
      ensures error == CheckShip(Snapshot(), f, route)
    {
      if f >= |fulfillments| { return Some(NotFound); }
      var x := fulfillments[f];
      if x.status != Assigned && x.status != At(Ready) { return Some(Busy); }
      if x.pickup { return Some(NoSuchUse); }
      if !route.linked { return Some(NoLinkage); }
      if route.sale == NoSale { return Some(NotFound); }
      if route.sale == Unfulfilled { return Some(NotFulfilled); }
      error := None;
    }

    /** Committed before the fulfillment is linked to its shipment. */
    method PlaceOwn(f: nat, address: bool, routed: bool, number: Option<string>) returns (error: Option<Error>)
      modifies this`shipments
      ensures Answer(error, Snapshot(), old(PlaceFor(Snapshot(), f, address, routed, number)), old(Snapshot()))
    {
      if !address { return Some(NoAddress); }
      error := Place(Of(f), Fulfilled, routed, number);
    }

    method LinkShipment(f: nat, was: FulfillmentStatus, s: nat)
      requires f < |fulfillments|
      modifies this`fulfillments
      ensures Snapshot() == old(Link(Snapshot(), f, was, s))
    {
      fulfillments := fulfillments[f := fulfillments[f].(shipment := Some(s))];
      if was != At(Ready) { fulfillments := fulfillments[f := fulfillments[f].(status := At(Ready))]; }
    }

    /** All of the call, when nothing comes between its commits. */
    method Ship(f: nat, route: Route, number: Option<string>) returns (error: Option<Error>)
      modifies this`shipments, this`fulfillments
      ensures Answer(error, Snapshot(), old(CreateShipment(Snapshot(), f, route, number)), old(Snapshot()))
    {
      hide HasReference, Taken, Link;
      error := CheckShipping(f, route);
      if error.Some? { return; }
      var shipment, was := |shipments|, fulfillments[f].status;
      error := PlaceOwn(f, route.address, route.routed, number);
      if error.None? { LinkShipment(f, was, shipment); }
    }

    /** The seller's step up to its first commit: the shipment is moved, and a refusal there is a refusal here. */
    method StartAdvance(f: nat, to: FulfillmentStatus, id: string, note: bool, orderReady: bool)
      returns (error: Option<Error>)
      modifies this`shipments, this`events
      ensures Answer(error, Snapshot(), old(BeginAdvance(Snapshot(), f, to, id, note, orderReady)), old(Snapshot()))
    {
      hide FindEvent, Allowed, Permitted, Move;
      if f >= |fulfillments| { return Some(NotFound); }
      var x := fulfillments[f];
      if !Permitted(x.status, to) { return Some(InvalidTransition); }
      if !orderReady { return Some(OrderNotReady); }
      if Physical(to) && !x.pickup && x.shipment.None? { return Some(NoShipment); }
      if to == At(Delivered) && x.pickup && !note { return Some(NoteRequired); }
      error := None;
      if !x.pickup && x.shipment.Some? && Physical(to) { error := MoveShipment(x.shipment.value, to.status, id); }
    }

    /** The rest of the step writes the status, whatever it has become meanwhile. */
    method WriteFulfillment(f: nat, to: FulfillmentStatus)
      requires f < |fulfillments|
      modifies this`fulfillments
      ensures Snapshot() == old(WriteStatus(Snapshot(), f, to))
    {
      fulfillments := fulfillments[f := fulfillments[f].(status := to)];
    }

    /** Both halves, when nothing comes between them; a repeated event of the shipment is answered as it is. */
    method AdvanceFulfillment(f: nat, to: FulfillmentStatus, id: string, note: bool, orderReady: bool)
      returns (error: Option<Error>)
      modifies this
      ensures Answer(error, Snapshot(), old(Advance(Snapshot(), f, to, id, note, orderReady)), old(Snapshot()))
    {
      hide Allowed, Move, FindEvent, Permitted;
      var k := EventIndex(id);
      if f < |fulfillments| && !Permitted(fulfillments[f].status, to) && k < |events|
         && fulfillments[f].shipment == Some(events[k].shipment) { return None; }
      error := StartAdvance(f, to, id, note, orderReady);
      if error.None? { WriteFulfillment(f, to); }
    }

    /** A carrier's signed event up to the move of the shipment; a repeat must carry the same payload. */
    method StartIngest(s: nat, to: Option<Status>, id: string, hash: string, signed: bool)
      returns (error: Option<Error>)
      modifies this`shipments, this`events
      ensures Answer(error, Snapshot(), old(BeginIngest(Snapshot(), s, to, id, hash, signed)), old(Snapshot()))
    {
      hide FindEvent, Allowed, Move;
      if id == "" { return Some(NoEventId); }
      if !signed { return Some(BadSignature); }
      if s >= |shipments| { return Some(NotFound); }
      var k := FindCarrier(carrier, id);
      if k < |carrier| {
        if carrier[k].hash != hash { return Some(OtherPayload); }
        return None;
      }
      if to.None? { return Some(Unsupported); }
      error := MoveShipment(s, to.value, id);
    }

    method RecordEvent(id: string, hash: string)
      modifies this`carrier
      ensures Snapshot() == old(Record(Snapshot(), id, hash))
    {
      if FindCarrier(carrier, id) == |carrier| { carrier := carrier + [CarrierEvent(id, hash)]; }
    }

    /** Both halves, when nothing comes between them: the event is applied and recorded once. */
    method IngestEvent(s: nat, to: Option<Status>, id: string, hash: string, signed: bool)
      returns (error: Option<Error>)
      modifies this
      ensures Answer(error, Snapshot(), old(Ingest(Snapshot(), s, to, id, hash, signed)), old(Snapshot()))
    {
      hide BeginIngest, Record;
      error := StartIngest(s, to, id, hash, signed);
      if error.None? { RecordEvent(id, hash); }
    }
  }

  /** The new rows, or the error and the old rows. */
  predicate Answer(error: Option<Error>, after: State, r: Result<State, Error>, before: State) {
    match r
    case Ok(st) => error == None && after == st
    case Err(e) => error == Some(e) && after == before
  }
}
