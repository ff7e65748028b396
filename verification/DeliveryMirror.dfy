/** Delivered means delivered: when a fulfillment mirrors its shipment, over every interleaving. */
module DeliveryMirror {
  import opened Delivery
  import opened DeliveryRuns
  import opened Outcomes

  predicate Mirrors(st: State, f: nat)
    requires f < |st.fulfillments|
  {
    var x := st.fulfillments[f];
    x.status == At(Delivered) && !x.pickup ==> HasArrived(st, f)
  }

  predicate HasArrived(st: State, f: nat)
    requires f < |st.fulfillments|
  {
    var s := st.fulfillments[f].shipment;
    s.Some? && s.value < |st.shipments| && st.shipments[s.value].status == Delivered
  }

  ghost predicate MirrorInv(st: State) { forall f :: 0 <= f < |st.fulfillments| ==> Mirrors(st, f) }

  // ---------------------------------------------------------------- the exact condition

  /** The fulfillment that the step marks delivered, with the event id of its call, unless it is a pickup. */
  function DeliveryBy(d: Desk, e: Step): Option<(nat, string)> {
    match e
    case BeginAdvancing(f, next, id, note, orderReady, raced) =>
      if next == At(Delivered) && BeginAdvance(d.st, f, next, id, note, orderReady).Ok? && MovesShipment(d.st, f, next)
         && Known(d.st, id) && !raced then Some((f, id))
      else None
    case Finish(a) =>
      if IsOpen(d, a) && d.attempts[a].work.Advancing? && d.attempts[a].work.next == At(Delivered)
      then Some((d.attempts[a].work.f, d.attempts[a].work.id)) else None
    case _ => None
  }

  /** The event id was used for something else than the delivery of the fulfillment's shipment, which has not
      been delivered otherwise. */
  predicate Dishonest(d: Desk, e: Step) {
    var x := DeliveryBy(d, e);
    x.Some? && x.value.0 < |d.st.fulfillments| && !Named(d.st, x.value.0, x.value.1) && !HasArrived(d.st, x.value.0)
  }

  /** The event with the id is a delivery of the fulfillment's shipment. */
  predicate Named(st: State, f: nat, id: string)
    requires f < |st.fulfillments|
  {
    var k := FindEvent(st.events, id);
    k < |st.events| && st.fulfillments[f].shipment == Some(st.events[k].shipment) && st.events[k].status == Delivered
  }

  /** The name does not lie: such a shipment has been delivered. */
  lemma NamedHasArrived(st: State, f: nat, id: string)
    requires LogInv(st) && f < |st.fulfillments| && Named(st, f, id)
    ensures HasArrived(st, f)
  {
    var k := FindEvent(st.events, id);
    assert st.events[k] in st.events;
    DeliveredIsLast(st.events, k);
    hide Replay, FindEvent;
  }

  lemma RowsMirror(st: State, after: State)
    requires MirrorInv(st) && NumbersStay(st, after) && RowsInv(st)
    requires |st.fulfillments| <= |after.fulfillments|
    requires forall f :: 0 <= f < |after.fulfillments| ==>
      Undelivered(after.fulfillments[f]) || (f < |st.fulfillments| && after.fulfillments[f] == st.fulfillments[f])
    ensures MirrorInv(after)
  {
    forall f | 0 <= f < |after.fulfillments| ensures Mirrors(after, f) {
      if f < |st.fulfillments| { assert Mirrors(st, f) && Owned(st, f); }
    }
  }

  predicate Undelivered(x: Fulfillment) { x.status != At(Delivered) || x.pickup }

  lemma WriteMirrorsIff(st: State, f: nat, to: FulfillmentStatus)
    requires MirrorInv(st) && f < |st.fulfillments|
    ensures MirrorInv(WriteStatus(st, f, to)) <==>
              (to == At(Delivered) && !st.fulfillments[f].pickup ==> HasArrived(st, f))
  {
    var after := WriteStatus(st, f, to);
    forall g | 0 <= g < |st.fulfillments| && g != f ensures Mirrors(after, g) { assert Mirrors(st, g); }
    assert Mirrors(after, f) <==> (to == At(Delivered) && !st.fulfillments[f].pickup ==> HasArrived(st, f));
  }

  lemma LinkMirrors(st: State, f: nat, was: FulfillmentStatus, s: nat)
    requires MirrorInv(st) && WorkInv(st, Linking(f, was, s))
    ensures MirrorInv(Link(st, f, was, s))
  {
    var after := Link(st, f, was, s);
    forall g | 0 <= g < |st.fulfillments| ensures Mirrors(after, g) { assert Mirrors(st, g); }
  }

  lemma FinishMirrorsIff(d: Desk, a: nat)
    requires DeskInv(d) && MirrorInv(d.st) && IsOpen(d, a)
    ensures MirrorInv(Next(d, Finish(a)).st) <==> !Dishonest(d, Finish(a))
  {
    var w := d.attempts[a].work;
    assert WorkInv(d.st, w);
    match w
    case Advancing(f, next, id) =>
      if Named(d.st, f, id) { NamedHasArrived(d.st, f, id); }
      hide LogInv, RowsInv, AttemptsInv, MirrorInv, Named;
      WriteMirrorsIff(d.st, f, next);
    case Linking(f, was, s) => LinkMirrors(d.st, f, was, s);
    case Recording(id, hash) =>
      hide LogInv, RowsInv, AttemptsInv, FindCarrier;
      assert forall f :: 0 <= f < |d.st.fulfillments| ==> Mirrors(Record(d.st, id, hash), f) == Mirrors(d.st, f);
    case Placing(_, _) =>
  }

  lemma BeginMirrorsIff(d: Desk, e: Step)
    requires DeskInv(d) && MirrorInv(d.st) && e.BeginAdvancing?
    ensures MirrorInv(Next(d, e).st) <==> !Dishonest(d, e)
  {
    if BeginAdvance(d.st, e.f, e.next, e.id, e.note, e.orderReady).Ok? {
      var moved := BeginAdvance(d.st, e.f, e.next, e.id, e.note, e.orderReady).value;
      BeginAdvanceKept(d.st, e.f, e.next, e.id, e.note, e.orderReady);
      RowsMirror(d.st, moved);
      if Named(d.st, e.f, e.id) { NamedHasArrived(d.st, e.f, e.id); }
      KnownMovesNothing(d.st, e);
      hide LogInv, RowsInv, AttemptsInv, MirrorInv, Named, Kept, Permitted, BeginAdvance;
      WriteMirrorsIff(moved, e.f, e.next);
    }
  }

  lemma KnownMovesNothing(st: State, e: Step)
    requires e.BeginAdvancing? && BeginAdvance(st, e.f, e.next, e.id, e.note, e.orderReady).Ok?
    ensures e.f < |st.fulfillments|
    ensures Known(st, e.id) || !MovesShipment(st, e.f, e.next) ==>
              BeginAdvance(st, e.f, e.next, e.id, e.note, e.orderReady).value == st
    ensures e.next == At(Delivered) && !st.fulfillments[e.f].pickup ==> MovesShipment(st, e.f, e.next)
  {
    hide Permitted, Allowed;
  }

  lemma OthersMirror(d: Desk, e: Step)
    requires DeskInv(d) && MirrorInv(d.st) && !e.Finish? && !e.BeginAdvancing?
    ensures MirrorInv(Next(d, e).st)
  {
    NextKeepsDesk(d, e);
    hide LogInv, AttemptsInv;
    if NoWrite(e) { OtherStepsKeepFulfillments(d, e); }
    RowsMirror(d.st, Next(d, e).st);
  }

  lemma NextMirrorsIff(d: Desk, e: Step)
    requires DeskInv(d) && MirrorInv(d.st)
    ensures MirrorInv(Next(d, e).st) <==> !Dishonest(d, e)
  {
    hide DeskInv, MirrorInv, Dishonest, Next;
    match e
    case Finish(a) => if IsOpen(d, a) { FinishMirrorsIff(d, a); } else { ClosedFinish(d, a); }
    case BeginAdvancing(_, _, _, _, _, _) => BeginMirrorsIff(d, e);
    case _ => OthersMirror(d, e); HonestOthers(d, e);
  }

  lemma ClosedFinish(d: Desk, a: nat)
    requires !IsOpen(d, a)
    ensures Next(d, Finish(a)) == d && !Dishonest(d, Finish(a))
  {
  }

  lemma HonestOthers(d: Desk, e: Step)
    requires !e.Finish? && !e.BeginAdvancing?
    ensures !Dishonest(d, e)
  {
  }

  ghost predicate AlwaysMirrors(steps: seq<Step>) {
    MirrorInv(RunAll(IDLE, steps).st) && (steps != [] ==> AlwaysMirrors(steps[..|steps| - 1]))
  }

  predicate NeverDishonest(steps: seq<Step>) {
    steps != [] ==>
      NeverDishonest(steps[..|steps| - 1]) && !Dishonest(RunAll(IDLE, steps[..|steps| - 1]), steps[|steps| - 1])
  }

  /** Main result, over every interleaving: every delivered fulfillment that is not a pickup has a delivered shipment
      at all times if and only if none is marked delivered under an id used for something else. */
  lemma {:induction false} DeliveredIsDeliveredIff(steps: seq<Step>)
    ensures AlwaysMirrors(steps) <==> NeverDishonest(steps)
    ensures AlwaysMirrors(steps) ==> MirrorInv(RunAll(IDLE, steps).st)
  {
    if steps == [] {
      assert MirrorInv(EMPTY);
    } else {
      var init := steps[..|steps| - 1];
      DeliveredIsDeliveredIff(init);
      RowsStayUnique(init);
      hide DeskInv, MirrorInv, Dishonest, Next;
      if AlwaysMirrors(init) { NextMirrorsIff(RunAll(IDLE, init), steps[|steps| - 1]); }
    }
  }

  // ---------------------------------------------------------------- what a caller can do

  /** A delivery begins under an id that is new, or that names the delivery, or after the delivery. */
  predicate BeginsHonestly(d: Desk, e: Step) {
    e.BeginAdvancing? && e.next == At(Delivered) && e.f < |d.st.fulfillments| && !d.st.fulfillments[e.f].pickup ==>
      (!Known(d.st, e.id) && !e.raced) || Named(d.st, e.f, e.id) || HasArrived(d.st, e.f)
  }

  predicate AllBeginHonestly(steps: seq<Step>) {
    steps != [] ==>
      && AllBeginHonestly(steps[..|steps| - 1])
      && BeginsHonestly(RunAll(IDLE, steps[..|steps| - 1]), steps[|steps| - 1])
  }

  /** A call that is about to mark a fulfillment delivered has had its shipment delivered. */
  ghost predicate Arrived(d: Desk) {
    forall a :: 0 <= a < |d.attempts| && d.attempts[a].open ==> DeliversArrived(d.st, d.attempts[a].work)
  }

  predicate DeliversArrived(st: State, w: Work) {
    w.Advancing? && w.next == At(Delivered) ==> w.f < |st.fulfillments| && HasArrived(st, w.f)
  }

  lemma ArrivedStays(st: State, after: State, w: Work)
    requires DeliversArrived(st, w) && NumbersStay(st, after) && FulfillmentsStay(st, after)
    ensures DeliversArrived(after, w)
  {
    if w.Advancing? && w.next == At(Delivered) {
      assert FulfillmentStays(st.fulfillments[w.f], after.fulfillments[w.f]);
    }
  }

  /** The attempts after a step: the old ones, ended or not, and at most one that is new. */
  lemma NewAttempts(d: Desk, e: Step)
    ensures var after := Next(d, e);
            && |d.attempts| <= |after.attempts| <= |d.attempts| + 1
            && (forall a :: 0 <= a < |d.attempts| && after.attempts[a].open && !after.attempts[a].work.Linking? ==>
                  d.attempts[a] == after.attempts[a])
            && (|after.attempts| == |d.attempts| + 1 && after.attempts[|d.attempts|].work.Advancing? ==>
                  && e.BeginAdvancing? && BeginAdvance(d.st, e.f, e.next, e.id, e.note, e.orderReady).Ok?
                  && MovesShipment(d.st, e.f, e.next) && (!Known(d.st, e.id) || e.raced)
                  && after.attempts[|d.attempts|].work == Advancing(e.f, e.next, e.id)
                  && after.st == BeginAdvance(d.st, e.f, e.next, e.id, e.note, e.orderReady).value)
  {
    hide BeginAdvance, CheckShip, PlaceFor, BeginIngest, Move, AssignTracking, PlaceShipment, CreateFulfillment, Write;
  }

  lemma MovedHasArrived(st: State, e: Step)
    requires e.BeginAdvancing? && BeginAdvance(st, e.f, e.next, e.id, e.note, e.orderReady).Ok?
    requires e.next == At(Delivered) && MovesShipment(st, e.f, e.next) && !Known(st, e.id)
    ensures e.f < |BeginAdvance(st, e.f, e.next, e.id, e.note, e.orderReady).value.fulfillments|
    ensures HasArrived(BeginAdvance(st, e.f, e.next, e.id, e.note, e.orderReady).value, e.f)
  {
    hide Permitted, Allowed, FindEvent;
  }

  lemma NextKeepsArrived(d: Desk, e: Step)
    requires DeskInv(d) && Arrived(d) && BeginsHonestly(d, e)
    ensures Arrived(Next(d, e)) && !Dishonest(d, e)
  {
    var after := Next(d, e);
    NextKeepsDesk(d, e);
    NewAttempts(d, e);
    if e.BeginAdvancing? && e.f < |d.st.fulfillments| && Named(d.st, e.f, e.id) { NamedHasArrived(d.st, e.f, e.id); }
    hide DeskInv, Next, TablesInv, NumbersStay, FulfillmentsStay, HasArrived, Named, Known, Move, Permitted;
    forall a | 0 <= a < |after.attempts| && after.attempts[a].open
      ensures DeliversArrived(after.st, after.attempts[a].work)
    {
      if a < |d.attempts| {
        if !after.attempts[a].work.Linking? { ArrivedStays(d.st, after.st, d.attempts[a].work); }
      } else if after.attempts[a].work.Advancing? && e.next == At(Delivered) {
        if !Known(d.st, e.id) {
          MovedHasArrived(d.st, e);
        } else {
          ArrivedStays(d.st, after.st, Advancing(e.f, e.next, e.id));
        }
      }
    }
  }

  /** When every delivery begins honestly, whatever is interleaved with it and whatever is dropped, a delivered
      fulfillment has a delivered shipment at all times. */
  lemma {:induction false} HonestIdsSuffice(steps: seq<Step>)
    requires AllBeginHonestly(steps)
    ensures Arrived(RunAll(IDLE, steps)) && NeverDishonest(steps) && AlwaysMirrors(steps)
  {
    DeliveredIsDeliveredIff(steps);
    if steps != [] {
      var init := steps[..|steps| - 1];
      HonestIdsSuffice(init);
      RowsStayUnique(init);
      hide DeskInv, Arrived, Dishonest, BeginsHonestly, Next, AlwaysMirrors;
      NextKeepsArrived(RunAll(IDLE, init), steps[|steps| - 1]);
    }
  }
}
