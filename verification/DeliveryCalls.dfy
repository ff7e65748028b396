/** Which calls of the seller, of logistics and of a carrier are accepted, and what each of them writes. */
module DeliveryCalls {
  import opened Delivery
  import opened Outcomes

  // ---------------------------------------------------------------- the way of a shipment

  /** Some event of the shipment among the first n says so. */
  ghost predicate Passed(events: seq<Event>, n: nat, s: nat, status: Status) {
    exists k :: 0 <= k < n && k < |events| && events[k].shipment == s && events[k].status == status
  }

  /** The stations before a status: a shipment is at or has been at each of them in turn. */
  ghost predicate CameThrough(events: seq<Event>, s: nat, status: Status) {
    match status
    case InTransit => Passed(events, |events|, s, PickedUp)
    case OutForDelivery => Passed(events, |events|, s, PickedUp) && Passed(events, |events|, s, InTransit)
    case Delivered =>
      Passed(events, |events|, s, PickedUp) && Passed(events, |events|, s, InTransit)
      && Passed(events, |events|, s, OutForDelivery)
    case Failed => Passed(events, |events|, s, PickedUp)
    case Returned => Passed(events, |events|, s, PickedUp)
    case _ => true
  }

  lemma PassedStays(events: seq<Event>, e: Event, s: nat, status: Status)
    ensures Passed(events, |events|, s, status) ==> Passed(events + [e], |events| + 1, s, status)
  {
    if Passed(events, |events|, s, status) {
      var k :| 0 <= k < |events| && events[k].shipment == s && events[k].status == status;
      assert (events + [e])[k] == events[k];
    }
  }

  lemma PassedNow(events: seq<Event>, s: nat)
    requires events != [] && events[|events| - 1].shipment == s
    ensures Passed(events, |events|, s, events[|events| - 1].status)
  {
  }

  /** Main result: whatever its log, a delivered shipment has been picked up, in transit and out for delivery, and one
      that failed or came back has been picked up; at every station but the first, its log says so. */
  lemma {:induction false} CameAllTheWay(events: seq<Event>, s: nat)
    requires Replay(events, s).Some?
    ensures CameThrough(events, s, Replay(events, s).value)
    ensures Replay(events, s) != Some(Ready) ==> Passed(events, |events|, s, Replay(events, s).value)
  {
    if events != [] {
      var n := |events| - 1;
      var init, e := events[..n], events[n];
      assert events == init + [e];
      CameAllTheWay(init, s);
      hide Passed;
      PassedStays(init, e, s, PickedUp);
      PassedStays(init, e, s, InTransit);
      PassedStays(init, e, s, OutForDelivery);
      if e.shipment == s {
        PassedNow(events, s);
      } else {
        PassedStays(init, e, s, Replay(init, s).value);
      }
    }
  }

  // ---------------------------------------------------------------- logistics

  ghost predicate Used(events: seq<Event>, id: string) { exists e :: e in events && e.id == id }

  lemma UsedIff(events: seq<Event>, id: string)
    ensures Used(events, id) <==> FindEvent(events, id) < |events|
  {
    var k := FindEvent(events, id);
    if k < |events| { assert events[k] in events; }
  }

  /** The next station is one that may follow, and nothing travels without a number. */
  predicate MayMove(x: Shipment, to: Status) {
    Allowed(x.status, to) && (to == PickedUp || to == InTransit || to == OutForDelivery ==> Tracked(x))
  }

  /** The shipment at its next station, with the event that says so. */
  function Moved(st: State, s: nat, to: Status, id: string): State
    requires s < |st.shipments|
  {
    st.(shipments := st.shipments[s := st.shipments[s].(status := to)], events := st.events + [Event(id, s, to)])
  }

  lemma MoveIff(st: State, s: nat, to: Status, id: string)
    ensures Move(st, s, to, id).Ok? <==>
              id != "" && s < |st.shipments| && (Used(st.events, id) || MayMove(st.shipments[s], to))
    ensures Move(st, s, to, id).Ok? ==>
              Move(st, s, to, id).value == if Used(st.events, id) then st else Moved(st, s, to, id)
  {
    UsedIff(st.events, id);
    hide Used, FindEvent, Allowed;
  }

  /** No shipment but the one at `except` has the number. */
  predicate Free(shipments: seq<Shipment>, number: string, except: nat) {
    forall t :: 0 <= t < |shipments| && t != except ==> shipments[t].tracking != Some(number)
  }

  /** A number is given to a shipment on its way, once, and to no other. */
  lemma TrackIff(st: State, s: nat, number: string)
    ensures AssignTracking(st, s, number).Ok? <==>
              && number != "" && s < |st.shipments| && Free(st.shipments, number, s)
              && st.shipments[s].status != Delivered && st.shipments[s].status != Cancelled
              && st.shipments[s].status != Returned
              && (Tracked(st.shipments[s]) ==> st.shipments[s].tracking == Some(number))
    ensures AssignTracking(st, s, number).Ok? ==>
              AssignTracking(st, s, number).value
              == st.(shipments := st.shipments[s := st.shipments[s].(tracking := Some(number))])
  {
  }

  /** A new shipment is ready, under a reference and a number of its own. */
  lemma PlaceIff(st: State, reference: Reference, sale: Sale, routed: bool, number: Option<string>)
    ensures PlaceShipment(st, reference, sale, routed, number).Ok? <==>
              && routed && sale == Fulfilled && (forall x :: x in st.shipments ==> x.reference != reference)
              && (number.Some? ==> forall x :: x in st.shipments ==> x.tracking != number)
    ensures PlaceShipment(st, reference, sale, routed, number).Ok? ==>
              PlaceShipment(st, reference, sale, routed, number).value
              == st.(shipments := st.shipments + [Shipment(reference, Ready, number)])
  {
  }

  // ---------------------------------------------------------------- the seller

  /** The first fulfillment of the order that is active. */
  predicate FirstActive(fulfillments: seq<Fulfillment>, order: nat, k: nat) {
    && k < |fulfillments| && fulfillments[k].order == order && Active(fulfillments[k])
    && forall j :: 0 <= j < k ==> fulfillments[j].order != order || !Active(fulfillments[j])
  }

  /** Main result: an order gets a fulfillment when it has no active one; a pending one only changes its method. */
  lemma CreateIff(st: State, order: nat, pickup: bool, orderReady: bool)
    ensures var after := CreateFulfillment(st, order, pickup, orderReady);
            && (after.Ok? <==> orderReady && forall k: nat :: FirstActive(st.fulfillments, order, k) ==>
                                               st.fulfillments[k].status == Pending)
            && (after.Ok? && (forall x :: x in st.fulfillments ==> x.order != order || !Active(x)) ==>
                  after.value
                  == st.(fulfillments := st.fulfillments + [Fulfillment(order, pickup, Pending, None)]))
            && (forall k: nat :: after.Ok? && FirstActive(st.fulfillments, order, k) ==>
                  after.value
                  == st.(fulfillments := st.fulfillments[k := st.fulfillments[k].(pickup := pickup)]))
  {
    var k := FindActive(st.fulfillments, order);
    hide FindActive, Active;
    if k < |st.fulfillments| {
      assert FirstActive(st.fulfillments, order, k);
      assert st.fulfillments[k] in st.fulfillments;
    }
  }

  /** Main result: an assigned or ready delivery of a fulfilled sale with an address gets one shipment, under its own
      reference, and is ready. */
  lemma ShipIff(st: State, f: nat, route: Route, number: Option<string>)
    ensures CreateShipment(st, f, route, number).Ok? <==>
              && f < |st.fulfillments| && !st.fulfillments[f].pickup
              && (st.fulfillments[f].status == Assigned || st.fulfillments[f].status == At(Ready))
              && route.linked && route.sale == Fulfilled && route.address && route.routed
              && (forall x :: x in st.shipments ==> x.reference != Of(f))
              && (number.Some? ==> forall x :: x in st.shipments ==> x.tracking != number)
    ensures CreateShipment(st, f, route, number).Ok? ==>
              CreateShipment(st, f, route, number).value
              == st.(shipments := st.shipments + [Shipment(Of(f), Ready, number)],
                     fulfillments := st.fulfillments[f := st.fulfillments[f].(shipment := Some(|st.shipments|),
                                                                              status := At(Ready))])
  {
    PlaceIff(st, Of(f), Fulfilled, route.routed, number);
    hide PlaceShipment;
  }

  /** The goods move with the fulfillment: it is no pickup, and the status is one of the road. */
  predicate OnTheRoad(x: Fulfillment, to: FulfillmentStatus) {
    !x.pickup
    && (to == At(PickedUp) || to == At(InTransit) || to == At(OutForDelivery) || to == At(Delivered))
  }

  /** The shipment may move, or the event has been used. */
  ghost predicate RoadIsFree(st: State, x: Fulfillment, to: Status, id: string) {
    && x.shipment.Some? && x.shipment.value < |st.shipments| && id != ""
    && (Used(st.events, id) || MayMove(st.shipments[x.shipment.value], to))
  }

  /** The event of the call is one of the fulfillment's shipment. */
  ghost predicate OwnEvent(st: State, x: Fulfillment, id: string) {
    exists e :: e in st.events && e.id == id && x.shipment == Some(e.shipment)
  }

  lemma OwnEventIff(st: State, x: Fulfillment, id: string)
    requires LogInv(st)
    ensures var k := FindEvent(st.events, id);
            OwnEvent(st, x, id) <==> k < |st.events| && x.shipment == Some(st.events[k].shipment)
  {
    hide Replay;
    var k := FindEvent(st.events, id);
    if k < |st.events| { assert st.events[k] in st.events; }
    if OwnEvent(st, x, id) {
      var e :| e in st.events && e.id == id && x.shipment == Some(e.shipment);
      var i :| 0 <= i < |st.events| && st.events[i] == e;
      assert i == k;
    }
  }

  /** The call asks for a step that may follow, of an order that is ready, with what the step needs. */
  predicate MayAdvance(x: Fulfillment, to: FulfillmentStatus, note: bool, orderReady: bool) {
    && Permitted(x.status, to) && orderReady && (OnTheRoad(x, to) ==> x.shipment.Some?)
    && (to == At(Delivered) && x.pickup ==> note)
  }

  /** Main result: a fulfillment advances when its step may follow and, on the road, its shipment moves along; the same
      event again is accepted and changes nothing. */
  lemma AdvanceIff(st: State, f: nat, to: FulfillmentStatus, id: string, note: bool, orderReady: bool)
    requires LogInv(st) && RowsInv(st)
    ensures var after := Advance(st, f, to, id, note, orderReady);
            && (after.Ok? <==>
                  && f < |st.fulfillments|
                  && var x := st.fulfillments[f];
                     if Permitted(x.status, to) then
                       && MayAdvance(x, to, note, orderReady)
                       && (OnTheRoad(x, to) ==> RoadIsFree(st, x, to.status, id))
                     else OwnEvent(st, x, id))
            && (after.Ok? ==>
                  var x := st.fulfillments[f];
                  after.value ==
                    if !Permitted(x.status, to) then st
                    else if OnTheRoad(x, to) && !Used(st.events, id) && x.shipment.value < |st.shipments| then
                      Moved(st, x.shipment.value, to.status, id).(fulfillments :=
                        st.fulfillments[f := x.(status := to)])
                    else st.(fulfillments := st.fulfillments[f := x.(status := to)]))
  {
    if f < |st.fulfillments| {
      var x := st.fulfillments[f];
      assert Owned(st, f);
      OwnEventIff(st, x, id);
      hide LogInv, RowsInv, OwnEvent, Permitted, FindEvent, Used;
      if Permitted(x.status, to) && OnTheRoad(x, to) && x.shipment.Some? {
        MoveIff(st, x.shipment.value, to.status, id);
      }
      hide Move, MayMove;
    }
  }

  // ---------------------------------------------------------------- carriers

  ghost predicate CarrierInv(carrier: seq<CarrierEvent>) {
    forall i, j :: 0 <= i < j < |carrier| ==> carrier[i].id != carrier[j].id
  }

  lemma CarrierFound(carrier: seq<CarrierEvent>, i: nat)
    requires CarrierInv(carrier) && i < |carrier|
    ensures FindCarrier(carrier, carrier[i].id) == i
  {
    CarrierIs(carrier, carrier[i].id);
    var k := FindCarrier(carrier, carrier[i].id);
    hide FindCarrier;
    assert k == i;
  }

  lemma {:induction false} CarrierIs(carrier: seq<CarrierEvent>, id: string)
    ensures FindCarrier(carrier, id) < |carrier| <==> exists c :: c in carrier && c.id == id
  {
    if carrier != [] {
      CarrierIs(carrier[1..], id);
      assert carrier == [carrier[0]] + carrier[1..];
    }
  }

  /** Main result: a carrier's event moves its shipment and is recorded with its payload; sent again with the same
      payload it changes nothing, with another it is refused. */
  lemma IngestIff(st: State, s: nat, to: Option<Status>, id: string, hash: string, signed: bool)
    requires CarrierInv(st.carrier)
    ensures var after := Ingest(st, s, to, id, hash, signed);
            && (after.Ok? <==>
                  && id != "" && signed && s < |st.shipments|
                  && (CarrierEvent(id, hash) in st.carrier
                      || ((forall c :: c in st.carrier ==> c.id != id) && to.Some?
                          && (Used(st.events, id) || MayMove(st.shipments[s], to.value)))))
            && (after.Ok? ==>
                  after.value ==
                    if CarrierEvent(id, hash) in st.carrier then st
                    else (if Used(st.events, id) then st else Moved(st, s, to.value, id))
                         .(carrier := st.carrier + [CarrierEvent(id, hash)]))
  {
    CarrierIs(st.carrier, id);
    var k := FindCarrier(st.carrier, id);
    if c :| c in st.carrier && c.id == id {
      var i :| 0 <= i < |st.carrier| && st.carrier[i] == c;
      CarrierFound(st.carrier, i);
      OnlyCarrier(st.carrier, k, hash);
    } else if to.Some? {
      MoveIff(st, s, to.value, id);
    }
    hide Move, FindCarrier, CarrierInv, Used, MayMove;
  }

  lemma OnlyCarrier(carrier: seq<CarrierEvent>, k: nat, hash: string)
    requires CarrierInv(carrier) && k < |carrier|
    ensures CarrierEvent(carrier[k].id, hash) in carrier <==> carrier[k].hash == hash
  {
    assert carrier[k] in carrier;
    if CarrierEvent(carrier[k].id, hash) in carrier {
      var j :| 0 <= j < |carrier| && carrier[j] == CarrierEvent(carrier[k].id, hash);
      assert j == k;
    }
  }
}
