/** What every interleaving of the delivery calls leaves in the tables: the way of each shipment, one entry a carrier
    event, and the steps of each fulfillment. */
module DeliveryHistory {
  import opened Delivery
  import opened DeliveryCalls
  import opened DeliveryInTurn
  import opened DeliveryRuns
  import opened Outcomes

  // ---------------------------------------------------------------- shipments

  /** Main result, over every interleaving: a shipment has come to its status by way of the stations before it, each
      with an event of its own, and has a number once it has left. */
  lemma ShipmentsCameAllTheWay(steps: seq<Step>, s: nat)
    requires s < |RunAll(IDLE, steps).st.shipments|
    ensures var st := RunAll(IDLE, steps).st;
            && CameThrough(st.events, s, st.shipments[s].status)
            && (st.shipments[s].status != Ready ==> Passed(st.events, |st.events|, s, st.shipments[s].status))
            && (Passed(st.events, |st.events|, s, PickedUp) ==>
                  st.shipments[s].status == Cancelled || Tracked(st.shipments[s]))
  {
    RowsStayUnique(steps);
    hide RunAll, AttemptsInv, Passed;
    CameAllTheWay(RunAll(IDLE, steps).st.events, s);
    if Passed(RunAll(IDLE, steps).st.events, |RunAll(IDLE, steps).st.events|, s, PickedUp) {
      NotReady(RunAll(IDLE, steps).st.events, s);
    }
  }

  /** A shipment that was picked up is never ready again. */
  lemma {:induction false} NotReady(events: seq<Event>, s: nat)
    requires Replay(events, s).Some? && Passed(events, |events|, s, PickedUp)
    ensures Replay(events, s) != Some(Ready)
  {
    var n := |events| - 1;
    if events[n].shipment != s { NotReady(events[..n], s); }
  }

  // ---------------------------------------------------------------- carriers

  lemma RecordKeepsCarrier(st: State, id: string, hash: string)
    requires CarrierInv(st.carrier)
    ensures CarrierInv(Record(st, id, hash).carrier)
  {
    CarrierIs(st.carrier, id);
    assert forall i :: 0 <= i < |st.carrier| ==> st.carrier[i] in st.carrier;
    hide FindCarrier;
  }

  lemma MoveKeepsCarrier(st: State, s: nat, to: Status, id: string)
    ensures Or(st, Move(st, s, to, id)).carrier == st.carrier
  {
    hide Allowed, FindEvent;
  }

  lemma NextKeepsCarrier(d: Desk, e: Step)
    requires CarrierInv(d.st.carrier)
    ensures CarrierInv(Next(d, e).st.carrier)
  {
    hide CarrierInv, Move, Record, FindEvent, HasReference, Taken, FindActive, FindCarrier, Permitted;
    match e
    case DoMove(s, to, id) => MoveKeepsCarrier(d.st, s, to, id);
    case BeginAdvancing(f, next, id, _, _, _) =>
      if f < |d.st.fulfillments| && d.st.fulfillments[f].shipment.Some? && next.At? {
        MoveKeepsCarrier(d.st, d.st.fulfillments[f].shipment.value, next.status, id);
      }
    case BeginIngesting(s, mapped, id, hash, _) =>
      if mapped.Some? { MoveKeepsCarrier(d.st, s, mapped.value, id); }
      if BeginIngest(d.st, s, mapped, id, hash, e.signed).Ok? {
        RecordKeepsCarrier(BeginIngest(d.st, s, mapped, id, hash, e.signed).value, id, hash);
      }
    case Finish(a) =>
      if IsOpen(d, a) && d.attempts[a].work.Recording? {
        RecordKeepsCarrier(d.st, d.attempts[a].work.id, d.attempts[a].work.hash);
      }
    case _ =>
  }

  /** Over every interleaving: a carrier's event is recorded once, whatever its payloads. */
  lemma {:induction false} CarriersAreDistinct(steps: seq<Step>)
    ensures CarrierInv(RunAll(IDLE, steps).st.carrier)
  {
    hide Next, CarrierInv;
    if steps == [] {
      NoCarrier();
    } else {
      CarriersAreDistinct(steps[..|steps| - 1]);
      NextKeepsCarrier(RunAll(IDLE, steps[..|steps| - 1]), steps[|steps| - 1]);
    }
  }

  lemma NoCarrier()
    ensures CarrierInv([])
  {
  }

  // ---------------------------------------------------------------- fulfillments

  /** The status stays, or the step is one that may follow. */
  predicate StatusStep(x: Fulfillment, y: Fulfillment) { y.status == x.status || Permitted(x.status, y.status) }

  ghost predicate StatusSteps(st: State, after: State) {
    && |st.fulfillments| <= |after.fulfillments|
    && (forall f :: 0 <= f < |st.fulfillments| ==> StatusStep(st.fulfillments[f], after.fulfillments[f]))
    && forall f :: |st.fulfillments| <= f < |after.fulfillments| ==> after.fulfillments[f].status == Pending
  }

  lemma NextIsStep(d: Desk, e: Step)
    requires DeskInv(d) && TurnInv(d)
    ensures StatusSteps(d.st, Next(d, e).st)
  {
    if NoWrite(e) {
      OtherStepsKeepFulfillments(d, e);
    } else {
      hide DeskInv, FindActive, Move, FindEvent, FindCarrier;
      match e
      case BeginAdvancing(f, next, id, note, orderReady, _) =>
        if BeginAdvance(d.st, f, next, id, note, orderReady).Ok? { BegunStep(d.st, f, next, id, note, orderReady); }
      case Finish(a) => if IsOpen(d, a) { assert OnTime(d.st, d.attempts[a].work); }
      case _ =>
    }
  }

  lemma BegunStep(st: State, f: nat, next: FulfillmentStatus, id: string, note: bool, orderReady: bool)
    requires BeginAdvance(st, f, next, id, note, orderReady).Ok?
    ensures f < |st.fulfillments| && Permitted(st.fulfillments[f].status, next)
    ensures BeginAdvance(st, f, next, id, note, orderReady).value.fulfillments == st.fulfillments
  {
    hide Allowed, FindEvent;
  }

  /** Main result: when calls on a fulfillment do not overlap, everything else interleaved as it likes, a fulfillment
      starts pending and only ever takes steps that may follow. */
  lemma {:induction false} StepsMayFollow(steps: seq<Step>, n: nat)
    requires NoneOverlap(steps) && n < |steps|
    ensures StatusSteps(RunAll(IDLE, steps[..n]).st, RunAll(IDLE, steps[..n + 1]).st)
  {
    hide Next, DeskInv, TurnInv, StatusSteps, InTurn;
    if n + 1 == |steps| {
      var init := steps[..n];
      RowsStayUnique(init);
      OneByOneStays(init);
      NextIsStep(RunAll(IDLE, init), steps[n]);
      assert steps[..n + 1] == steps;
    } else {
      var init := steps[..|steps| - 1];
      StepsMayFollow(init, n);
      assert init[..n] == steps[..n] && init[..n + 1] == steps[..n + 1];
    }
  }
}
