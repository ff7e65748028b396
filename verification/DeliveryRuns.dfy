/** Seller, logistics and carrier calls in any order, where a call that commits half-way is two steps: what the
    first commit releases, anyone may change before the last write. */
module DeliveryRuns {
  import opened Delivery
  import opened Outcomes

  /** What a call in flight still has to do; `was` is the status that it read. */
  datatype Work =
    | Advancing(f: nat, next: FulfillmentStatus, id: string)
    | Placing(f: nat, was: FulfillmentStatus)
    | Linking(f: nat, was: FulfillmentStatus, s: nat)
    | Recording(id: string, hash: string)

  datatype Attempt = Attempt(work: Work, open: bool)

  datatype Desk = Desk(st: State, attempts: seq<Attempt>)

  const IDLE := Desk(EMPTY, [])

  /** `raced`: the event id was taken while the call was adding it, and the rollback gave up its locks;
      `confirmed`: the commerce order is fulfilled, and committed, by the call. */
  datatype Step =
    | DoMove(s: nat, to: Status, id: string)
    | DoTrack(s: nat, number: string)
    | DoPlace(reference: Reference, sale: Sale, routed: bool, given: Option<string>)
    | DoCreate(order: nat, pickup: bool, orderReady: bool)
    | BeginAdvancing(f: nat, next: FulfillmentStatus, id: string, note: bool, orderReady: bool, raced: bool)
    | BeginShipping(f: nat, route: Route, given: Option<string>, confirmed: bool)
    | BeginIngesting(s: nat, mapped: Option<Status>, id: string, hash: string, signed: bool)
    | PlaceNext(a: nat, address: bool, routed: bool, given: Option<string>)
    | Finish(a: nat)
    | Drop(a: nat)

  function Or(st: State, r: Result<State, Error>): State {
    match r
    case Ok(after) => after
    case Err(_) => st
  }

  function Open(d: Desk, st: State, work: Work): Desk { Desk(st, d.attempts + [Attempt(work, true)]) }

  predicate IsOpen(d: Desk, a: nat) { a < |d.attempts| && d.attempts[a].open }

  function End(d: Desk, a: nat): Desk {
    if a < |d.attempts| then d.(attempts := d.attempts[a := d.attempts[a].(open := false)]) else d
  }

  predicate Known(st: State, id: string) { FindEvent(st.events, id) < |st.events| }

  function StartAdvance(d: Desk, e: Step): Desk
    requires e.BeginAdvancing?
  {
    match BeginAdvance(d.st, e.f, e.next, e.id, e.note, e.orderReady)
    case Err(_) => d
    case Ok(moved) =>
      if MovesShipment(d.st, e.f, e.next) && (!Known(d.st, e.id) || e.raced)
      then Open(d, moved, Advancing(e.f, e.next, e.id))
      else d.(st := WriteStatus(moved, e.f, e.next))
  }

  function StartShip(d: Desk, e: Step): Desk
    requires e.BeginShipping?
  {
    if CheckShip(d.st, e.f, e.route).Some? then d
    else if e.confirmed then Open(d, d.st, Placing(e.f, d.st.fulfillments[e.f].status))
    else
      match PlaceFor(d.st, e.f, e.route.address, e.route.routed, e.given)
      case Err(_) => d
      case Ok(placed) => Open(d, placed, Linking(e.f, d.st.fulfillments[e.f].status, |d.st.shipments|))
  }

  function StartIngest(d: Desk, e: Step): Desk
    requires e.BeginIngesting?
  {
    match BeginIngest(d.st, e.s, e.mapped, e.id, e.hash, e.signed)
    case Err(_) => d
    case Ok(moved) =>
      if Known(d.st, e.id) then d.(st := Record(moved, e.id, e.hash)) else Open(d, moved, Recording(e.id, e.hash))
  }

  function PlaceAfter(d: Desk, e: Step): Desk
    requires e.PlaceNext?
  {
    if !IsOpen(d, e.a) || !d.attempts[e.a].work.Placing? then d
    else
      var w := d.attempts[e.a].work;
      match PlaceFor(d.st, w.f, e.address, e.routed, e.given)
      case Err(_) => End(d, e.a)
      case Ok(placed) => Desk(placed, d.attempts[e.a := Attempt(Linking(w.f, w.was, |d.st.shipments|), true)])
  }

  /** The last write of a call, whatever has happened since its first commit. */
  function Write(st: State, w: Work): State {
    match w
    case Advancing(f, next, _) => if f < |st.fulfillments| then WriteStatus(st, f, next) else st
    case Linking(f, was, s) => if f < |st.fulfillments| then Link(st, f, was, s) else st
    case Recording(id, hash) => Record(st, id, hash)
    case Placing(_, _) => st
  }

  function Next(d: Desk, e: Step): Desk {
    match e
    case DoMove(s, to, id) => d.(st := Or(d.st, Move(d.st, s, to, id)))
    case DoTrack(s, number) => d.(st := Or(d.st, AssignTracking(d.st, s, number)))
    case DoPlace(reference, sale, routed, given) =>
      d.(st := Or(d.st, PlaceShipment(d.st, reference, sale, routed, given)))
    case DoCreate(order, pickup, orderReady) => d.(st := Or(d.st, CreateFulfillment(d.st, order, pickup, orderReady)))
    case BeginAdvancing(_, _, _, _, _, _) => StartAdvance(d, e)
    case BeginShipping(_, _, _, _) => StartShip(d, e)
    case BeginIngesting(_, _, _, _, _) => StartIngest(d, e)
    case PlaceNext(_, _, _, _) => PlaceAfter(d, e)
    case Finish(a) => if IsOpen(d, a) then End(d.(st := Write(d.st, d.attempts[a].work)), a) else d
    case Drop(a) => End(d, a)
  }

  function RunAll(d: Desk, steps: seq<Step>): Desk {
    if steps == [] then d else Next(RunAll(d, steps[..|steps| - 1]), steps[|steps| - 1])
  }

  // ---------------------------------------------------------------- uninterrupted calls

  /** Both halves with nothing in between are the whole call. */
  lemma AdvanceAlone(d: Desk, f: nat, next: FulfillmentStatus, id: string, note: bool, orderReady: bool, raced: bool)
    ensures Next(Next(d, BeginAdvancing(f, next, id, note, orderReady, raced)), Finish(|d.attempts|)).st
              == Or(d.st, Advance(d.st, f, next, id, note, orderReady))
  {
    hide FindEvent, Allowed, Permitted;
  }

  lemma ShipAlone(d: Desk, f: nat, route: Route, given: Option<string>)
    ensures Next(Next(d, BeginShipping(f, route, given, false)), Finish(|d.attempts|)).st
              == Or(d.st, CreateShipment(d.st, f, route, given))
    ensures Next(Next(Next(d, BeginShipping(f, route, given, true)),
                      PlaceNext(|d.attempts|, route.address, route.routed, given)), Finish(|d.attempts|)).st
              == Or(d.st, CreateShipment(d.st, f, route, given))
  {
    hide HasReference, Taken;
  }

  lemma IngestAlone(d: Desk, s: nat, mapped: Option<Status>, id: string, hash: string, signed: bool)
    ensures Next(Next(d, BeginIngesting(s, mapped, id, hash, signed)), Finish(|d.attempts|)).st
              == Or(d.st, Ingest(d.st, s, mapped, id, hash, signed))
  {
    hide FindEvent, Allowed, FindCarrier;
  }

  // ---------------------------------------------------------------- what every step keeps

  /** What a call in flight can rely on about its fulfillment: it is past pending, so its method is fixed. */
  predicate WorkInv(st: State, w: Work) {
    match w
    case Advancing(f, next, _) =>
      && f < |st.fulfillments| && st.fulfillments[f].status != Pending && !st.fulfillments[f].pickup
      && st.fulfillments[f].shipment.Some? && Physical(next)
    case Placing(f, was) =>
      f < |st.fulfillments| && st.fulfillments[f].status != Pending && !st.fulfillments[f].pickup
    case Linking(f, was, s) =>
      && f < |st.fulfillments| && st.fulfillments[f].status != Pending && !st.fulfillments[f].pickup
      && st.fulfillments[f].shipment.None? && s < |st.shipments| && st.shipments[s].reference == Of(f)
    case Recording(_, _) => true
  }

  ghost predicate AttemptsInv(d: Desk) {
    && (forall a :: 0 <= a < |d.attempts| && d.attempts[a].open ==> WorkInv(d.st, d.attempts[a].work))
    && forall a, b :: 0 <= a < b < |d.attempts| && d.attempts[a].open && d.attempts[b].open ==>
         !BothLink(d.attempts[a].work, d.attempts[b].work)
  }

  predicate BothLink(v: Work, w: Work) { v.Linking? && w.Linking? && v.s == w.s }

  ghost predicate DeskInv(d: Desk) { LogInv(d.st) && RowsInv(d.st) && AttemptsInv(d) }

  /** Fulfillments keep their order and, once past pending, their method; a shipment given is never changed. */
  ghost predicate FulfillmentsStay(st: State, after: State) {
    && |st.fulfillments| <= |after.fulfillments|
    && forall f :: 0 <= f < |st.fulfillments| ==> FulfillmentStays(st.fulfillments[f], after.fulfillments[f])
  }

  predicate FulfillmentStays(x: Fulfillment, y: Fulfillment) {
    && y.order == x.order && (x.status != Pending ==> y.status != Pending && y.pickup == x.pickup)
    && (x.shipment.Some? ==> y.shipment == x.shipment)
  }

  /** Calls in flight survive a step that changes no link, or only the one of a call that is then over. */
  lemma WorkStays(st: State, after: State, w: Work)
    requires WorkInv(st, w) && FulfillmentsStay(st, after) && NumbersStay(st, after)
    requires w.Linking? ==> after.fulfillments[w.f].shipment == st.fulfillments[w.f].shipment
    ensures WorkInv(after, w)
  {
    if !w.Recording? { assert FulfillmentStays(st.fulfillments[w.f], after.fulfillments[w.f]); }
  }

  ghost predicate TablesInv(st: State) { LogInv(st) && RowsInv(st) }

  /** What a step of the tables keeps. */
  ghost predicate Kept(st: State, after: State) {
    TablesInv(after) && NumbersStay(st, after) && FulfillmentsStay(st, after)
  }

  lemma SameIsKept(st: State)
    requires TablesInv(st)
    ensures Kept(st, st)
  {
  }

  lemma MoveKept(st: State, s: nat, to: Status, id: string)
    requires TablesInv(st)
    ensures Kept(st, Or(st, Move(st, s, to, id))) && Or(st, Move(st, s, to, id)).fulfillments == st.fulfillments
  {
    if Move(st, s, to, id).Ok? {
      MoveKeepsLog(st, s, to, id);
      MoveKeepsRows(st, s, to, id);
    }
    hide LogInv, RowsInv, Move;
  }

  lemma PlaceKept(st: State, reference: Reference, sale: Sale, routed: bool, number: Option<string>)
    requires TablesInv(st)
    ensures var after := Or(st, PlaceShipment(st, reference, sale, routed, number));
            Kept(st, after) && after.fulfillments == st.fulfillments
  {
    if PlaceShipment(st, reference, sale, routed, number).Ok? {
      PlaceKeepsLog(st, reference, sale, routed, number);
      PlaceKeepsRows(st, reference, sale, routed, number);
    }
    hide LogInv, RowsInv, HasReference, Taken;
  }

  lemma TrackKept(st: State, s: nat, number: string)
    requires TablesInv(st)
    ensures var after := Or(st, AssignTracking(st, s, number));
            Kept(st, after) && after.fulfillments == st.fulfillments
  {
    if AssignTracking(st, s, number).Ok? { TrackKeepsRows(st, s, number); }
    hide RowsInv, Replay, Taken;
  }

  /** Rows of fulfillments change, shipments do not. */
  lemma RowsKept(st: State, after: State)
    requires TablesInv(st) && after == st.(fulfillments := after.fulfillments, carrier := after.carrier)
    requires FulfillmentsStay(st, after) && forall f :: 0 <= f < |after.fulfillments| ==> Owned(after, f)
    ensures Kept(st, after)
  {
    hide Replay, FulfillmentsStay;
  }

  lemma CreateKept(st: State, order: nat, pickup: bool, orderReady: bool)
    requires TablesInv(st)
    ensures var after := Or(st, CreateFulfillment(st, order, pickup, orderReady));
            && Kept(st, after)
            && forall f :: 0 <= f < |st.fulfillments| ==>
                 |st.fulfillments| <= |after.fulfillments|
                 && after.fulfillments[f].shipment == st.fulfillments[f].shipment
  {
    hide LogInv, FindActive;
    var after := Or(st, CreateFulfillment(st, order, pickup, orderReady));
    forall f | 0 <= f < |after.fulfillments| ensures Owned(after, f) {
      if f < |st.fulfillments| { assert Owned(st, f); }
    }
    hide RowsInv;
    RowsKept(st, after);
  }

  lemma WriteStatusKept(st: State, f: nat, to: FulfillmentStatus)
    requires TablesInv(st) && f < |st.fulfillments| && to != Pending
    ensures Kept(st, WriteStatus(st, f, to))
  {
    hide LogInv;
    var after := WriteStatus(st, f, to);
    forall g | 0 <= g < |after.fulfillments| ensures Owned(after, g) { assert Owned(st, g); }
    hide RowsInv;
    RowsKept(st, after);
  }

  lemma LinkKept(st: State, f: nat, was: FulfillmentStatus, s: nat)
    requires TablesInv(st) && WorkInv(st, Linking(f, was, s))
    ensures Kept(st, Link(st, f, was, s))
  {
    hide LogInv;
    var after := Link(st, f, was, s);
    forall g | 0 <= g < |after.fulfillments| ensures Owned(after, g) { assert Owned(st, g); }
    hide RowsInv;
    RowsKept(st, after);
  }

  lemma WriteKept(st: State, w: Work)
    requires TablesInv(st) && WorkInv(st, w)
    ensures Kept(st, Write(st, w))
    ensures |Write(st, w).fulfillments| == |st.fulfillments|
    ensures forall f :: 0 <= f < |st.fulfillments| && !(w.Linking? && w.f == f) ==>
              Write(st, w).fulfillments[f].shipment == st.fulfillments[f].shipment
  {
    hide TablesInv, Kept;
    match w
    case Advancing(f, next, _) => WriteStatusKept(st, f, next);
    case Linking(f, was, s) => LinkKept(st, f, was, s);
    case Recording(id, hash) => RecordKept(st, id, hash);
    case Placing(_, _) => SameIsKept(st);
  }

  lemma RecordKept(st: State, id: string, hash: string)
    requires TablesInv(st)
    ensures Kept(st, Record(st, id, hash))
  {
    hide LogInv, FindCarrier;
    var after := Record(st, id, hash);
    forall g | 0 <= g < |after.fulfillments| ensures Owned(after, g) { assert Owned(st, g); }
    hide RowsInv;
    RowsKept(st, after);
  }

  /** A step of the tables that links nothing leaves every call in flight as it was. */
  lemma TablesKeepDesk(d: Desk, after: State)
    requires DeskInv(d) && Kept(d.st, after)
    requires forall f :: 0 <= f < |d.st.fulfillments| ==>
               after.fulfillments[f].shipment == d.st.fulfillments[f].shipment
    ensures DeskInv(d.(st := after))
  {
    hide LogInv, RowsInv, NumbersStay, FulfillmentsStay, WorkInv;
    forall a | 0 <= a < |d.attempts| && d.attempts[a].open ensures WorkInv(after, d.attempts[a].work) {
      LinkInRange(d.st, d.attempts[a].work);
      WorkStays(d.st, after, d.attempts[a].work);
    }
  }

  lemma LinkInRange(st: State, w: Work)
    requires WorkInv(st, w)
    ensures w.Linking? ==> w.f < |st.fulfillments|
  {
  }

  lemma OpenKeepsDesk(d: Desk, work: Work)
    requires DeskInv(d) && WorkInv(d.st, work)
    requires forall a :: 0 <= a < |d.attempts| && d.attempts[a].open ==> !BothLink(d.attempts[a].work, work)
    ensures DeskInv(Open(d, d.st, work))
  {
    hide LogInv, RowsInv, WorkInv, BothLink;
  }

  lemma EndKeepsDesk(d: Desk, a: nat)
    requires DeskInv(d)
    ensures DeskInv(End(d, a))
  {
    hide LogInv, RowsInv, WorkInv, BothLink;
  }

  /** Two calls never link the same fulfillment: their shipments would share a reference. */
  lemma LinksApart(st: State, v: Work, w: Work)
    requires RowsInv(st) && WorkInv(st, v) && WorkInv(st, w) && v.Linking? && w.Linking? && v.s != w.s
    ensures v.f != w.f
  {
  }

  lemma FinishKeepsDesk(d: Desk, a: nat)
    requires DeskInv(d) && IsOpen(d, a)
    ensures DeskInv(Next(d, Finish(a))) && Kept(d.st, Next(d, Finish(a)).st)
  {
    var w, after := d.attempts[a].work, Write(d.st, d.attempts[a].work);
    WriteKept(d.st, w);
    forall b | 0 <= b < |d.attempts| && b != a && d.attempts[b].open ensures WorkInv(after, d.attempts[b].work) {
      var v := d.attempts[b].work;
      assert !BothLink(d.attempts[if a < b then a else b].work, d.attempts[if a < b then b else a].work);
      if v.Linking? && w.Linking? { LinksApart(d.st, v, w); }
      LinkInRange(d.st, v);
      hide WorkInv, Write, LogInv, RowsInv, NumbersStay, FulfillmentsStay;
      WorkStays(d.st, after, v);
    }
    hide WorkInv, Write, LogInv, RowsInv, BothLink, NumbersStay, FulfillmentsStay;
  }

  lemma BeginAdvanceKept(st: State, f: nat, to: FulfillmentStatus, id: string, note: bool, orderReady: bool)
    requires TablesInv(st) && BeginAdvance(st, f, to, id, note, orderReady).Ok?
    ensures var moved := BeginAdvance(st, f, to, id, note, orderReady).value;
            Kept(st, moved) && moved.fulfillments == st.fulfillments
  {
    hide TablesInv, Kept, Move;
    SameIsKept(st);
    if MovesShipment(st, f, to) { MoveKept(st, st.fulfillments[f].shipment.value, to.status, id); }
  }

  lemma KeptTwice(a: State, b: State, c: State)
    requires Kept(a, b) && Kept(b, c)
    ensures Kept(a, c)
  {
    hide TablesInv;
    forall f | 0 <= f < |a.fulfillments| ensures FulfillmentStays(a.fulfillments[f], c.fulfillments[f]) {
      assert FulfillmentStays(a.fulfillments[f], b.fulfillments[f]);
      assert FulfillmentStays(b.fulfillments[f], c.fulfillments[f]);
    }
  }

  lemma AdvanceKeepsDesk(d: Desk, e: Step)
    requires DeskInv(d) && e.BeginAdvancing?
    ensures DeskInv(StartAdvance(d, e)) && Kept(d.st, StartAdvance(d, e).st)
  {
    hide LogInv, RowsInv, Kept, AttemptsInv, Move, FindEvent;
    SameIsKept(d.st);
    if BeginAdvance(d.st, e.f, e.next, e.id, e.note, e.orderReady).Ok? {
      var moved := BeginAdvance(d.st, e.f, e.next, e.id, e.note, e.orderReady).value;
      BeginAdvanceKept(d.st, e.f, e.next, e.id, e.note, e.orderReady);
      KeptMeans(d.st, moved);
      TablesKeepDesk(d, moved);
      if MovesShipment(d.st, e.f, e.next) && (!Known(d.st, e.id) || e.raced) {
        OpenKeepsDesk(d.(st := moved), Advancing(e.f, e.next, e.id));
      } else {
        WriteStatusKept(moved, e.f, e.next);
        KeptTwice(d.st, moved, WriteStatus(moved, e.f, e.next));
        TablesKeepDesk(d.(st := moved), WriteStatus(moved, e.f, e.next));
      }
    }
  }

  lemma KeptMeans(st: State, after: State)
    requires Kept(st, after)
    ensures TablesInv(after) && |st.fulfillments| <= |after.fulfillments| && |st.shipments| <= |after.shipments|
  {
  }

  /** The shipment placed for a fulfillment is new, so the fulfillment has none. */
  lemma PlacedIsFree(d: Desk, f: nat, was: FulfillmentStatus, address: bool, routed: bool, given: Option<string>)
    requires DeskInv(d) && WorkInv(d.st, Placing(f, was)) && PlaceFor(d.st, f, address, routed, given).Ok?
    ensures var placed, w := PlaceFor(d.st, f, address, routed, given).value, Linking(f, was, |d.st.shipments|);
            && Kept(d.st, placed) && placed.fulfillments == d.st.fulfillments && WorkInv(placed, w)
            && forall a :: 0 <= a < |d.attempts| && d.attempts[a].open ==> !BothLink(d.attempts[a].work, w)
  {
    PlaceKept(d.st, Of(f), Fulfilled, routed, given);
    assert Owned(d.st, f);
    hide LogInv, Kept, Taken;
    forall a | 0 <= a < |d.attempts| && d.attempts[a].open
      ensures !BothLink(d.attempts[a].work, Linking(f, was, |d.st.shipments|))
    {
      assert WorkInv(d.st, d.attempts[a].work);
    }
  }

  lemma ShipKeepsDesk(d: Desk, e: Step)
    requires DeskInv(d) && e.BeginShipping?
    ensures DeskInv(StartShip(d, e)) && Kept(d.st, StartShip(d, e).st)
  {
    hide LogInv, RowsInv, Kept, AttemptsInv;
    SameIsKept(d.st);
    if CheckShip(d.st, e.f, e.route).None? {
      var was := d.st.fulfillments[e.f].status;
      assert WorkInv(d.st, Placing(e.f, was));
      if e.confirmed {
        OpenKeepsDesk(d, Placing(e.f, was));
      } else if PlaceFor(d.st, e.f, e.route.address, e.route.routed, e.given).Ok? {
        PlacedIsFree(d, e.f, was, e.route.address, e.route.routed, e.given);
        hide PlaceFor;
        var placed := PlaceFor(d.st, e.f, e.route.address, e.route.routed, e.given).value;
        TablesKeepDesk(d, placed);
        OpenKeepsDesk(d.(st := placed), Linking(e.f, was, |d.st.shipments|));
      }
    }
  }

  lemma PlaceAfterKeepsDesk(d: Desk, e: Step)
    requires DeskInv(d) && e.PlaceNext?
    ensures DeskInv(PlaceAfter(d, e)) && Kept(d.st, PlaceAfter(d, e).st)
  {
    SameIsKept(d.st);
    if IsOpen(d, e.a) && d.attempts[e.a].work.Placing? {
      var w := d.attempts[e.a].work;
      assert WorkInv(d.st, w);
      hide LogInv, RowsInv, Kept, WorkInv, BothLink;
      EndKeepsDesk(d, e.a);
      if PlaceFor(d.st, w.f, e.address, e.routed, e.given).Ok? {
        PlacedIsFree(d, w.f, w.was, e.address, e.routed, e.given);
        hide PlaceFor;
        var placed := PlaceFor(d.st, w.f, e.address, e.routed, e.given).value;
        TablesKeepDesk(d, placed);
        ReplaceKeepsDesk(d.(st := placed), e.a, Linking(w.f, w.was, |d.st.shipments|));
      }
    }
  }

  lemma ReplaceKeepsDesk(d: Desk, a: nat, work: Work)
    requires DeskInv(d) && a < |d.attempts| && WorkInv(d.st, work)
    requires forall b :: 0 <= b < |d.attempts| && d.attempts[b].open ==> !BothLink(d.attempts[b].work, work)
    ensures DeskInv(d.(attempts := d.attempts[a := Attempt(work, true)]))
  {
    hide LogInv, RowsInv, WorkInv;
  }

  lemma IngestKeepsDesk(d: Desk, e: Step)
    requires DeskInv(d) && e.BeginIngesting?
    ensures DeskInv(StartIngest(d, e)) && Kept(d.st, StartIngest(d, e).st)
  {
    hide LogInv, RowsInv, Kept, AttemptsInv, Move, FindEvent, FindCarrier;
    SameIsKept(d.st);
    if BeginIngest(d.st, e.s, e.mapped, e.id, e.hash, e.signed).Ok? {
      var moved := BeginIngest(d.st, e.s, e.mapped, e.id, e.hash, e.signed).value;
      assert Kept(d.st, moved) && moved.fulfillments == d.st.fulfillments by {
        if e.mapped.Some? { MoveKept(d.st, e.s, e.mapped.value, e.id); }
      }
      KeptMeans(d.st, moved);
      TablesKeepDesk(d, moved);
      if Known(d.st, e.id) {
        RecordKept(moved, e.id, e.hash);
        KeptTwice(d.st, moved, Record(moved, e.id, e.hash));
        TablesKeepDesk(d.(st := moved), Record(moved, e.id, e.hash));
      } else {
        OpenKeepsDesk(d.(st := moved), Recording(e.id, e.hash));
      }
    }
  }

  lemma NextKeepsDesk(d: Desk, e: Step)
    requires DeskInv(d)
    ensures DeskInv(Next(d, e)) && Kept(d.st, Next(d, e).st)
  {
    hide LogInv, RowsInv, AttemptsInv, Kept, Move, AssignTracking, PlaceShipment, CreateFulfillment;
    SameIsKept(d.st);
    match e
    case DoMove(s, to, id) => MoveKept(d.st, s, to, id); TablesKeepDesk(d, Next(d, e).st);
    case DoTrack(s, number) => TrackKept(d.st, s, number); TablesKeepDesk(d, Next(d, e).st);
    case DoPlace(reference, sale, routed, given) =>
      PlaceKept(d.st, reference, sale, routed, given);
      TablesKeepDesk(d, Next(d, e).st);
    case DoCreate(order, pickup, orderReady) =>
      CreateKept(d.st, order, pickup, orderReady);
      KeptMeans(d.st, Next(d, e).st);
      TablesKeepDesk(d, Next(d, e).st);
    case BeginAdvancing(_, _, _, _, _, _) => AdvanceKeepsDesk(d, e);
    case BeginShipping(_, _, _, _) => ShipKeepsDesk(d, e);
    case BeginIngesting(_, _, _, _, _) => IngestKeepsDesk(d, e);
    case PlaceNext(_, _, _, _) => PlaceAfterKeepsDesk(d, e);
    case Finish(a) => if IsOpen(d, a) { FinishKeepsDesk(d, a); }
    case Drop(a) => EndKeepsDesk(d, a);
  }

  /** Main result, over every interleaving: a shipment's events are a legal path from ready to its status under
      distinct ids, references and numbers are distinct, nothing leaves without a number, and a fulfillment's
      shipment is the one placed for it. */
  lemma {:induction false} RowsStayUnique(steps: seq<Step>)
    ensures DeskInv(RunAll(IDLE, steps))
  {
    if steps != [] {
      RowsStayUnique(steps[..|steps| - 1]);
      hide DeskInv, Next;
      NextKeepsDesk(RunAll(IDLE, steps[..|steps| - 1]), steps[|steps| - 1]);
    }
  }

  /** Over every later interleaving: numbers are final, and so are a fulfillment's order, method and shipment. */
  lemma {:induction false} NumbersAreFinal(d: Desk, steps: seq<Step>)
    requires DeskInv(d)
    ensures DeskInv(RunAll(d, steps)) && Kept(d.st, RunAll(d, steps).st)
  {
    if steps == [] {
      SameIsKept(d.st);
    } else {
      NumbersAreFinal(d, steps[..|steps| - 1]);
      hide DeskInv, Kept, Next;
      NextKeepsDesk(RunAll(d, steps[..|steps| - 1]), steps[|steps| - 1]);
      KeptTwice(d.st, RunAll(d, steps[..|steps| - 1]).st, RunAll(d, steps).st);
    }
  }

  // ---------------------------------------------------------------- one active fulfillment per order

  /** The call writes a status that leaves the fulfillment active. */
  predicate LeavesActive(w: Work) {
    (w.Advancing? && w.next != At(Delivered)) || (w.Linking? && w.was != At(Ready))
  }

  /** A call that was overtaken makes a closed fulfillment active again, while its order has another. */
  predicate Reopens(d: Desk, e: Step) {
    && e.Finish? && IsOpen(d, e.a) && LeavesActive(d.attempts[e.a].work)
    && var f := d.attempts[e.a].work.f;
       f < |d.st.fulfillments| && !Active(d.st.fulfillments[f]) && HasOther(d.st.fulfillments, f)
  }

  predicate HasOther(fulfillments: seq<Fulfillment>, f: nat)
    requires f < |fulfillments|
  {
    exists g :: 0 <= g < |fulfillments| && g != f && fulfillments[g].order == fulfillments[f].order
                && Active(fulfillments[g])
  }

  lemma OneRowChanges(fulfillments: seq<Fulfillment>, f: nat, x: Fulfillment)
    requires OneActive(fulfillments) && f < |fulfillments| && x.order == fulfillments[f].order
    ensures OneActive(fulfillments[f := x]) <==>
              !(Active(x) && !Active(fulfillments[f]) && HasOther(fulfillments, f))
  {
    hide Active;
    var after := fulfillments[f := x];
    if Active(x) && !Active(fulfillments[f]) && HasOther(fulfillments, f) {
      var g :| 0 <= g < |fulfillments| && g != f && fulfillments[g].order == x.order && Active(fulfillments[g]);
      assert after[f] == x && after[g] == fulfillments[g];
    }
  }

  lemma CreateKeepsOne(st: State, order: nat, pickup: bool, orderReady: bool)
    requires OneActive(st.fulfillments)
    ensures OneActive(Or(st, CreateFulfillment(st, order, pickup, orderReady)).fulfillments)
  {
    var k := FindActive(st.fulfillments, order);
    if orderReady && k < |st.fulfillments| {
      OneRowChanges(st.fulfillments, k, st.fulfillments[k].(pickup := pickup));
    }
  }

  /** The first half of a call changes no fulfillment, or does all of a call whose transition is allowed. */
  lemma BeginKeepsOne(d: Desk, e: Step)
    requires TablesInv(d.st) && e.BeginAdvancing? && OneActive(d.st.fulfillments)
    ensures OneActive(StartAdvance(d, e).st.fulfillments)
  {
    hide OneActive, Move, TablesInv, Kept;
    if BeginAdvance(d.st, e.f, e.next, e.id, e.note, e.orderReady).Ok? {
      BeginAdvanceKept(d.st, e.f, e.next, e.id, e.note, e.orderReady);
      OneRowChanges(d.st.fulfillments, e.f, d.st.fulfillments[e.f].(status := e.next));
    }
  }

  lemma PlaceKeepsFulfillments(st: State, f: nat, address: bool, routed: bool, given: Option<string>)
    ensures PlaceFor(st, f, address, routed, given).Ok? ==>
              PlaceFor(st, f, address, routed, given).value.fulfillments == st.fulfillments
  {
    hide HasReference, Taken;
  }

  lemma IngestKeepsFulfillments(st: State, s: nat, to: Option<Status>, id: string, hash: string, signed: bool)
    ensures BeginIngest(st, s, to, id, hash, signed).Ok? ==>
              BeginIngest(st, s, to, id, hash, signed).value.fulfillments == st.fulfillments
  {
    hide Allowed, FindEvent, FindCarrier;
  }

  /** Steps that write no fulfillment. */
  predicate NoWrite(e: Step) { !e.DoCreate? && !e.BeginAdvancing? && !e.Finish? }

  lemma OtherStepsKeepFulfillments(d: Desk, e: Step)
    requires TablesInv(d.st) && NoWrite(e)
    ensures Next(d, e).st.fulfillments == d.st.fulfillments
  {
    hide TablesInv, Kept, Move, AssignTracking, PlaceShipment, PlaceFor, BeginIngest, CheckShip;
    match e
    case DoMove(s, to, id) => MoveKept(d.st, s, to, id);
    case DoTrack(s, number) => TrackKept(d.st, s, number);
    case DoPlace(reference, sale, routed, given) => PlaceKept(d.st, reference, sale, routed, given);
    case BeginShipping(f, route, given, _) => PlaceKeepsFulfillments(d.st, f, route.address, route.routed, given);
    case BeginIngesting(s, mapped, id, hash, signed) => IngestKeepsFulfillments(d.st, s, mapped, id, hash, signed);
    case PlaceNext(a, address, routed, given) =>
      if IsOpen(d, a) && d.attempts[a].work.Placing? {
        PlaceKeepsFulfillments(d.st, d.attempts[a].work.f, address, routed, given);
      }
    case Drop(_) =>
  }

  lemma FinishKeepsOneIff(d: Desk, a: nat)
    requires DeskInv(d) && IsOpen(d, a) && OneActive(d.st.fulfillments)
    ensures OneActive(Next(d, Finish(a)).st.fulfillments) <==> !Reopens(d, Finish(a))
  {
    var w := d.attempts[a].work;
    assert WorkInv(d.st, w);
    hide LogInv, RowsInv, AttemptsInv, OneActive, HasOther;
    match w
    case Advancing(f, next, _) => OneRowChanges(d.st.fulfillments, f, d.st.fulfillments[f].(status := next));
    case Linking(f, was, s) => OneRowChanges(d.st.fulfillments, f, Link(d.st, f, was, s).fulfillments[f]);
    case _ =>
  }

  lemma NextKeepsOneIff(d: Desk, e: Step)
    requires DeskInv(d) && OneActive(d.st.fulfillments)
    ensures OneActive(Next(d, e).st.fulfillments) <==> !Reopens(d, e)
  {
    hide OneActive, LogInv, RowsInv, AttemptsInv, HasOther;
    if NoWrite(e) {
      OtherStepsKeepFulfillments(d, e);
    } else {
      hide CreateFulfillment, StartAdvance, Write;
      match e
      case DoCreate(order, pickup, orderReady) => CreateKeepsOne(d.st, order, pickup, orderReady);
      case BeginAdvancing(_, _, _, _, _, _) => BeginKeepsOne(d, e);
      case Finish(a) => if IsOpen(d, a) { FinishKeepsOneIff(d, a); }
    }
  }

  ghost predicate AlwaysOneActive(steps: seq<Step>) {
    OneActive(RunAll(IDLE, steps).st.fulfillments) && (steps != [] ==> AlwaysOneActive(steps[..|steps| - 1]))
  }

  predicate NeverReopens(steps: seq<Step>) {
    steps != [] ==>
      NeverReopens(steps[..|steps| - 1]) && !Reopens(RunAll(IDLE, steps[..|steps| - 1]), steps[|steps| - 1])
  }

  /** Main result, over every interleaving: a seller order has at most one active fulfillment at all times if and
      only if no call, overtaken by one that closed its fulfillment, makes it active again beside another. */
  lemma {:induction false} OneActiveIff(steps: seq<Step>)
    ensures AlwaysOneActive(steps) <==> NeverReopens(steps)
  {
    if steps != [] {
      var init := steps[..|steps| - 1];
      OneActiveIff(init);
      RowsStayUnique(init);
      hide DeskInv, OneActive, Reopens, Next;
      if AlwaysOneActive(init) { OneHolds(init); NextKeepsOneIff(RunAll(IDLE, init), steps[|steps| - 1]); }
    }
  }

  lemma OneHolds(steps: seq<Step>)
    requires AlwaysOneActive(steps)
    ensures OneActive(RunAll(IDLE, steps).st.fulfillments)
  {
  }

  // ---------------------------------------------------------------- closed fulfillments

  ghost predicate ClosedStay(st: State, after: State) {
    && |st.fulfillments| <= |after.fulfillments|
    && forall f :: 0 <= f < |st.fulfillments| && !Active(st.fulfillments[f]) ==>
         after.fulfillments[f] == st.fulfillments[f]
  }

  /** A call writes over a fulfillment that was closed, with another status, since its first commit. */
  predicate Overtaken(d: Desk, e: Step) {
    && e.Finish? && IsOpen(d, e.a)
    && var w := d.attempts[e.a].work;
       match w
       case Advancing(f, next, _) =>
         f < |d.st.fulfillments| && !Active(d.st.fulfillments[f]) && d.st.fulfillments[f].status != next
       case Linking(f, _, _) => f < |d.st.fulfillments| && !Active(d.st.fulfillments[f])
       case _ => false
  }

  lemma NextKeepsClosedIff(d: Desk, e: Step)
    requires DeskInv(d)
    ensures ClosedStay(d.st, Next(d, e).st) <==> !Overtaken(d, e)
  {
    hide LogInv, RowsInv, AttemptsInv;
    if NoWrite(e) {
      OtherStepsKeepFulfillments(d, e);
    } else {
      match e
      case DoCreate(_, _, _) =>
      case BeginAdvancing(f, next, id, note, orderReady, _) =>
        hide Move;
        if BeginAdvance(d.st, f, next, id, note, orderReady).Ok? {
          BeginAdvanceKept(d.st, f, next, id, note, orderReady);
        }
      case Finish(a) => if IsOpen(d, a) { FinishKeepsClosedIff(d, a); }
    }
  }

  lemma FinishKeepsClosedIff(d: Desk, a: nat)
    requires DeskInv(d) && IsOpen(d, a)
    ensures ClosedStay(d.st, Next(d, Finish(a)).st) <==> !Overtaken(d, Finish(a))
  {
    var w, after := d.attempts[a].work, Next(d, Finish(a)).st;
    assert WorkInv(d.st, w);
    hide LogInv, RowsInv, AttemptsInv;
    if Overtaken(d, Finish(a)) { assert after.fulfillments[w.f] != d.st.fulfillments[w.f]; }
  }

  ghost predicate AlwaysClosedStay(steps: seq<Step>) {
    steps != [] ==>
      && AlwaysClosedStay(steps[..|steps| - 1])
      && ClosedStay(RunAll(IDLE, steps[..|steps| - 1]).st, RunAll(IDLE, steps).st)
  }

  predicate NeverOvertaken(steps: seq<Step>) {
    steps != [] ==>
      NeverOvertaken(steps[..|steps| - 1]) && !Overtaken(RunAll(IDLE, steps[..|steps| - 1]), steps[|steps| - 1])
  }

  /** Over every interleaving: no delivered, returned or cancelled fulfillment ever changes if and only if no call
      is overtaken by one that closed its fulfillment. */
  lemma {:induction false} ClosedStayIff(steps: seq<Step>)
    ensures AlwaysClosedStay(steps) <==> NeverOvertaken(steps)
  {
    if steps != [] {
      var init := steps[..|steps| - 1];
      ClosedStayIff(init);
      RowsStayUnique(init);
      hide DeskInv, ClosedStay, Overtaken, Next;
      NextKeepsClosedIff(RunAll(IDLE, init), steps[|steps| - 1]);
    }
  }
}
