/** Calls on one fulfillment that do not overlap, and what happens from empty tables when they do. */
module DeliveryInTurn {
  import opened Delivery
  import opened DeliveryMirror
  import opened DeliveryRuns
  import opened Outcomes

  // ---------------------------------------------------------------- one call at a time

  predicate Concerns(w: Work, f: nat) { !w.Recording? && w.f == f }

  predicate UnderWay(d: Desk, f: nat) {
    exists a :: 0 <= a < |d.attempts| && d.attempts[a].open && Concerns(d.attempts[a].work, f)
  }

  /** No call begins on a fulfillment while another is under way. */
  predicate InTurn(d: Desk, e: Step) { e.BeginAdvancing? || e.BeginShipping? ==> !UnderWay(d, e.f) }

  predicate NoneOverlap(steps: seq<Step>) {
    steps != [] ==>
      NoneOverlap(steps[..|steps| - 1]) && InTurn(RunAll(IDLE, steps[..|steps| - 1]), steps[|steps| - 1])
  }

  /** The fulfillment is as the call found it. */
  predicate OnTime(st: State, w: Work) {
    match w
    case Advancing(f, next, _) => f < |st.fulfillments| && Permitted(st.fulfillments[f].status, next)
    case Placing(f, was) =>
      f < |st.fulfillments| && st.fulfillments[f].status == was && was in {Assigned, At(Ready)}
    case Linking(f, was, _) =>
      f < |st.fulfillments| && st.fulfillments[f].status == was && was in {Assigned, At(Ready)}
    case Recording(_, _) => true
  }

  ghost predicate TurnInv(d: Desk) {
    && (forall a :: 0 <= a < |d.attempts| && d.attempts[a].open ==> OnTime(d.st, d.attempts[a].work))
    && forall a, b :: 0 <= a < b < |d.attempts| && d.attempts[a].open && d.attempts[b].open ==>
         Apart(d.attempts[a].work, d.attempts[b].work)
  }

  predicate Apart(v: Work, w: Work) { v.Recording? || w.Recording? || v.f != w.f }

  /** A call that is on time finds its fulfillment active, and writes over nothing that was closed. */
  lemma OnTimeIsHarmless(d: Desk, e: Step)
    requires TurnInv(d)
    ensures !Reopens(d, e) && !Overtaken(d, e)
  {
    hide HasOther;
    if e.Finish? && IsOpen(d, e.a) { assert OnTime(d.st, d.attempts[e.a].work); }
  }

  /** Statuses change only where no call is under way. */
  predicate SameStatuses(d: Desk, after: State) {
    && |d.st.fulfillments| <= |after.fulfillments|
    && forall f :: 0 <= f < |d.st.fulfillments| && UnderWay(d, f) ==>
         after.fulfillments[f].status == d.st.fulfillments[f].status
  }

  lemma OnTimeStays(d: Desk, after: State, a: nat)
    requires IsOpen(d, a) && OnTime(d.st, d.attempts[a].work) && SameStatuses(d, after)
    ensures OnTime(after, d.attempts[a].work)
  {
    var w := d.attempts[a].work;
    hide Permitted;
    if !w.Recording? { assert Concerns(d.attempts[a].work, w.f) && UnderWay(d, w.f); }
  }

  lemma TablesKeepTurn(d: Desk, after: State)
    requires TurnInv(d) && SameStatuses(d, after)
    ensures TurnInv(d.(st := after))
  {
    forall a | 0 <= a < |d.attempts| && d.attempts[a].open ensures OnTime(after, d.attempts[a].work) {
      OnTimeStays(d, after, a);
    }
    hide OnTime, SameStatuses, Apart;
  }

  lemma OpenKeepsTurn(d: Desk, work: Work)
    requires TurnInv(d) && OnTime(d.st, work) && (work.Recording? || !UnderWay(d, work.f))
    ensures TurnInv(Open(d, d.st, work))
  {
    var after := Open(d, d.st, work);
    forall a | 0 <= a < |d.attempts| && d.attempts[a].open ensures Apart(d.attempts[a].work, work) {
      assert !work.Recording? ==> !Concerns(d.attempts[a].work, work.f);
    }
    hide OnTime, Apart;
  }

  lemma EndKeepsTurn(d: Desk, a: nat)
    requires TurnInv(d)
    ensures TurnInv(End(d, a))
  {
    hide OnTime, Apart;
  }

  lemma FinishKeepsTurn(d: Desk, a: nat)
    requires DeskInv(d) && TurnInv(d) && IsOpen(d, a)
    ensures TurnInv(Next(d, Finish(a)))
  {
    var w, after, ended := d.attempts[a].work, Write(d.st, d.attempts[a].work), End(d, a);
    EndKeepsTurn(d, a);
    hide DeskInv;
    forall f | 0 <= f < |d.st.fulfillments| && UnderWay(ended, f)
      ensures |after.fulfillments| == |d.st.fulfillments| && after.fulfillments[f].status == d.st.fulfillments[f].status
    {
      var b :| 0 <= b < |d.attempts| && ended.attempts[b].open && Concerns(ended.attempts[b].work, f);
      assert Apart(d.attempts[if a < b then a else b].work, d.attempts[if a < b then b else a].work);
    }
    hide TurnInv, Write, UnderWay;
    WriteLength(d.st, w);
    TablesKeepTurn(ended, after);
  }

  lemma WriteLength(st: State, w: Work)
    ensures |Write(st, w).fulfillments| == |st.fulfillments|
  {
    hide FindCarrier;
  }

  lemma AdvanceKeepsTurn(d: Desk, e: Step)
    requires DeskInv(d) && TurnInv(d) && e.BeginAdvancing? && InTurn(d, e)
    ensures TurnInv(Next(d, e))
  {
    if BeginAdvance(d.st, e.f, e.next, e.id, e.note, e.orderReady).Ok? {
      var moved := BeginAdvance(d.st, e.f, e.next, e.id, e.note, e.orderReady).value;
      BeginAdvanceKept(d.st, e.f, e.next, e.id, e.note, e.orderReady);
      assert e.f < |d.st.fulfillments| && Permitted(d.st.fulfillments[e.f].status, e.next);
      hide DeskInv, TurnInv, Move, Permitted, UnderWay, Kept;
      TablesKeepTurn(d, moved);
      if MovesShipment(d.st, e.f, e.next) && (!Known(d.st, e.id) || e.raced) {
        SameBusy(d, moved, e.f);
        OpenKeepsTurn(d.(st := moved), Advancing(e.f, e.next, e.id));
      } else {
        TablesKeepTurn(d, WriteStatus(moved, e.f, e.next));
      }
    }
  }

  lemma SameBusy(d: Desk, st: State, f: nat)
    ensures UnderWay(d.(st := st), f) <==> UnderWay(d, f)
  {
    hide Concerns;
    forall a | 0 <= a < |d.attempts| ensures d.(st := st).attempts[a] == d.attempts[a] {
    }
  }

  lemma ShipKeepsTurn(d: Desk, e: Step)
    requires TurnInv(d) && e.BeginShipping? && InTurn(d, e)
    ensures TurnInv(Next(d, e))
  {
    PlaceKeepsFulfillments(d.st, e.f, e.route.address, e.route.routed, e.given);
    hide TurnInv, PlaceFor, UnderWay;
    if CheckShip(d.st, e.f, e.route).None? {
      if e.confirmed {
        OpenKeepsTurn(d, Placing(e.f, d.st.fulfillments[e.f].status));
      } else if PlaceFor(d.st, e.f, e.route.address, e.route.routed, e.given).Ok? {
        var placed := PlaceFor(d.st, e.f, e.route.address, e.route.routed, e.given).value;
        TablesKeepTurn(d, placed);
        SameBusy(d, placed, e.f);
        OpenKeepsTurn(d.(st := placed), Linking(e.f, d.st.fulfillments[e.f].status, |d.st.shipments|));
      }
    }
  }

  lemma PlaceKeepsTurn(d: Desk, e: Step)
    requires TurnInv(d) && e.PlaceNext?
    ensures TurnInv(Next(d, e))
  {
    EndKeepsTurn(d, e.a);
    if IsOpen(d, e.a) && d.attempts[e.a].work.Placing? {
      var w := d.attempts[e.a].work;
      PlaceKeepsFulfillments(d.st, w.f, e.address, e.routed, e.given);
      hide PlaceFor;
      if PlaceFor(d.st, w.f, e.address, e.routed, e.given).Ok? {
        var placed := PlaceFor(d.st, w.f, e.address, e.routed, e.given).value;
        TablesKeepTurn(d, placed);
        assert OnTime(placed, w) by { OnTimeStays(d, placed, e.a); }
        hide OnTime, UnderWay;
        LinkKeepsTurn(d.(st := placed), e.a, |d.st.shipments|);
      }
    }
  }

  /** The same call, one commit later. */
  lemma LinkKeepsTurn(d: Desk, a: nat, s: nat)
    requires TurnInv(d) && IsOpen(d, a) && d.attempts[a].work.Placing?
    ensures var w := d.attempts[a].work;
            TurnInv(d.(attempts := d.attempts[a := Attempt(Linking(w.f, w.was, s), true)]))
  {
    var w := d.attempts[a].work;
    assert OnTime(d.st, w) && OnTime(d.st, Linking(w.f, w.was, s));
    hide OnTime;
  }

  lemma IngestKeepsTurn(d: Desk, e: Step)
    requires TurnInv(d) && e.BeginIngesting?
    ensures TurnInv(Next(d, e))
  {
    IngestKeepsFulfillments(d.st, e.s, e.mapped, e.id, e.hash, e.signed);
    hide TurnInv, BeginIngest, UnderWay, FindCarrier;
    if BeginIngest(d.st, e.s, e.mapped, e.id, e.hash, e.signed).Ok? {
      var moved := BeginIngest(d.st, e.s, e.mapped, e.id, e.hash, e.signed).value;
      TablesKeepTurn(d, moved);
      if Known(d.st, e.id) { TablesKeepTurn(d, Record(moved, e.id, e.hash)); }
      else { OpenKeepsTurn(d.(st := moved), Recording(e.id, e.hash)); }
    }
  }

  /** A new method is for a pending fulfillment, on which nothing is under way. */
  lemma CreateKeepsTurn(d: Desk, e: Step)
    requires TurnInv(d) && e.DoCreate?
    ensures TurnInv(Next(d, e))
  {
    hide TurnInv, UnderWay, FindActive;
    TablesKeepTurn(d, Next(d, e).st);
  }

  lemma NextKeepsTurn(d: Desk, e: Step)
    requires DeskInv(d) && TurnInv(d) && InTurn(d, e)
    ensures TurnInv(Next(d, e))
  {
    hide DeskInv, TurnInv, InTurn, UnderWay;
    match e
    case BeginAdvancing(_, _, _, _, _, _) => AdvanceKeepsTurn(d, e);
    case BeginShipping(_, _, _, _) => ShipKeepsTurn(d, e);
    case BeginIngesting(_, _, _, _, _) => IngestKeepsTurn(d, e);
    case PlaceNext(_, _, _, _) => PlaceKeepsTurn(d, e);
    case DoCreate(_, _, _) => CreateKeepsTurn(d, e);
    case Finish(a) => if IsOpen(d, a) { FinishKeepsTurn(d, a); }
    case Drop(a) => EndKeepsTurn(d, a);
    case _ => TablesStep(d, e);
  }

  lemma TablesStep(d: Desk, e: Step)
    requires DeskInv(d) && TurnInv(d) && (e.DoMove? || e.DoTrack? || e.DoPlace?)
    ensures TurnInv(Next(d, e))
  {
    OtherStepsKeepFulfillments(d, e);
    hide DeskInv, TurnInv, UnderWay, Move, AssignTracking, PlaceShipment;
    TablesKeepTurn(d, Next(d, e).st);
  }

  /** When calls on a fulfillment do not overlap, everything else interleaved as it likes, a seller order has at
      most one active fulfillment at all times and no closed one ever changes. */
  lemma {:induction false} OneByOneStays(steps: seq<Step>)
    requires NoneOverlap(steps)
    ensures TurnInv(RunAll(IDLE, steps)) && NeverReopens(steps) && NeverOvertaken(steps)
    ensures AlwaysOneActive(steps) && AlwaysClosedStay(steps)
  {
    OneActiveIff(steps);
    ClosedStayIff(steps);
    if steps != [] {
      var init, e := steps[..|steps| - 1], steps[|steps| - 1];
      OneByOneStays(init);
      RowsStayUnique(init);
      hide DeskInv, TurnInv, InTurn, Next, Reopens, Overtaken, AlwaysOneActive, AlwaysClosedStay;
      OnTimeIsHarmless(RunAll(IDLE, init), e);
      NextKeepsTurn(RunAll(IDLE, init), e);
    }
  }

  // ---------------------------------------------------------------- calls that overlap

  lemma Then(d: Desk, steps: seq<Step>, e: Step)
    ensures RunAll(d, steps + [e]) == Next(RunAll(d, steps), e)
  {
    assert (steps + [e])[..|steps|] == steps;
  }

  lemma FourSteps(d: Desk, e0: Step, e1: Step, e2: Step, e3: Step)
    ensures RunAll(d, [e0, e1, e2, e3]) == Next(Next(Next(Next(d, e0), e1), e2), e3)
  {
    hide Next;
    Then(d, [], e0);
    Then(d, [e0], e1);
    Then(d, [e0, e1], e2);
    Then(d, [e0, e1, e2], e3);
    assert [] + [e0] == [e0] && [e0] + [e1] == [e0, e1] && [e0, e1] + [e2] == [e0, e1, e2];
    assert [e0, e1, e2] + [e3] == [e0, e1, e2, e3];
  }

  lemma {:induction false} RunAppend(d: Desk, steps: seq<Step>, more: seq<Step>)
    ensures RunAll(d, steps + more) == RunAll(RunAll(d, steps), more)
  {
    if more == [] {
      assert steps + more == steps;
    } else {
      var n := |more| - 1;
      RunAppend(d, steps, more[..n]);
      assert (steps + more)[..|steps + more| - 1] == steps + more[..n];
    }
  }

  /** A transition of f begins, f is closed, its order gets another fulfillment, and the transition goes on. */
  function Overtake(d: Desk, f: nat, next: FulfillmentStatus, closing: FulfillmentStatus, id: string): seq<Step>
    requires f < |d.st.fulfillments|
  {
    [BeginAdvancing(f, next, id, false, true, false), BeginAdvancing(f, closing, "", false, true, false),
     DoCreate(d.st.fulfillments[f].order, false, true), Finish(|d.attempts|)]
  }

  /** The transition moves a shipment that leaves the fulfillment active, and it could be closed instead. */
  predicate CanOvertake(st: State, f: nat, next: FulfillmentStatus, closing: FulfillmentStatus, id: string) {
    && f < |st.fulfillments| && next != At(Delivered) && closing in {At(Returned), At(Cancelled)}
    && Permitted(st.fulfillments[f].status, closing) && MovesShipment(st, f, next) && !Known(st, id)
    && BeginAdvance(st, f, next, id, false, true).Ok?
  }

  lemma NoneLeft(fulfillments: seq<Fulfillment>, f: nat, x: Fulfillment)
    requires OneActive(fulfillments) && f < |fulfillments| && Active(fulfillments[f])
    requires !Active(x) && x.order == fulfillments[f].order
    ensures FindActive(fulfillments[f := x], x.order) == |fulfillments|
  {
    var after := fulfillments[f := x];
    hide Active;
    forall g | 0 <= g < |fulfillments| ensures after[g].order != x.order || !Active(after[g]) {
      if g != f && fulfillments[g].order == x.order {
        assert !Active(fulfillments[if f < g then f else g]) || !Active(fulfillments[if f < g then g else f]);
      }
    }
  }

  /** Both fulfillments of the order are active, and the first was closed: it goes on as if it had not been. */
  lemma OvertakenReopens(d: Desk, f: nat, next: FulfillmentStatus, closing: FulfillmentStatus, id: string)
    requires TablesInv(d.st) && OneActive(d.st.fulfillments) && CanOvertake(d.st, f, next, closing, id)
    ensures var fs, x := RunAll(d, Overtake(d, f, next, closing, id)).st.fulfillments, d.st.fulfillments[f];
            && fs == d.st.fulfillments[f := x.(status := next)] + [Fulfillment(x.order, false, Pending, None)]
            && !OneActive(fs)
  {
    var x, st := d.st.fulfillments[f], d.st;
    var moved := BeginAdvance(st, f, next, id, false, true).value;
    var pending := Fulfillment(x.order, false, Pending, None);
    CanOvertakeMeans(st, f, next, closing, id);
    OvertakeSteps(d, f, next, closing, id);
    Begun(d, f, next, id);
    var begun := Open(d, moved, Advancing(f, next, id));
    hide RunAll, Overtake, CanOvertake, Next, TablesInv, OneActive, Permitted, BeginAdvance, MovesShipment, Known;
    ClosedMeanwhile(begun, f, closing);
    var two := begun.(st := WriteStatus(moved, f, closing));
    NewPending(two, st.fulfillments, f, x.(status := closing));
    Finished(two.(st := two.st.(fulfillments := two.st.fulfillments + [pending])), |d.attempts|, f, next, id);
    TwoActive(st.fulfillments[f := x.(status := next)], f, pending);
  }

  lemma CanOvertakeMeans(st: State, f: nat, next: FulfillmentStatus, closing: FulfillmentStatus, id: string)
    requires TablesInv(st) && CanOvertake(st, f, next, closing, id)
    ensures BeginAdvance(st, f, next, id, false, true).value.fulfillments == st.fulfillments
    ensures Active(st.fulfillments[f]) && Active(st.fulfillments[f].(status := next))
    ensures !Active(st.fulfillments[f].(status := closing))
  {
    BeginAdvanceKept(st, f, next, id, false, true);
    hide TablesInv, Kept, Move;
  }

  lemma OvertakeSteps(d: Desk, f: nat, next: FulfillmentStatus, closing: FulfillmentStatus, id: string)
    requires f < |d.st.fulfillments|
    ensures RunAll(d, Overtake(d, f, next, closing, id))
              == Next(Next(Next(Next(d, BeginAdvancing(f, next, id, false, true, false)),
                                BeginAdvancing(f, closing, "", false, true, false)),
                           DoCreate(d.st.fulfillments[f].order, false, true)), Finish(|d.attempts|))
  {
    var steps := Overtake(d, f, next, closing, id);
    FourSteps(d, steps[0], steps[1], steps[2], steps[3]);
    hide RunAll, Next;
    assert steps == [steps[0], steps[1], steps[2], steps[3]];
  }

  lemma Begun(d: Desk, f: nat, next: FulfillmentStatus, id: string)
    requires f < |d.st.fulfillments| && MovesShipment(d.st, f, next) && !Known(d.st, id)
    requires BeginAdvance(d.st, f, next, id, false, true).Ok?
    ensures Next(d, BeginAdvancing(f, next, id, false, true, false))
              == Open(d, BeginAdvance(d.st, f, next, id, false, true).value, Advancing(f, next, id))
  {
    hide BeginAdvance;
  }

  lemma ClosedMeanwhile(d: Desk, f: nat, closing: FulfillmentStatus)
    requires f < |d.st.fulfillments| && closing in {At(Returned), At(Cancelled)}
    requires Permitted(d.st.fulfillments[f].status, closing)
    ensures Next(d, BeginAdvancing(f, closing, "", false, true, false)) == d.(st := WriteStatus(d.st, f, closing))
  {
    hide Permitted;
  }

  lemma NewPending(d: Desk, before: seq<Fulfillment>, f: nat, x: Fulfillment)
    requires OneActive(before) && f < |before| && Active(before[f]) && !Active(x) && x.order == before[f].order
    requires d.st.fulfillments == before[f := x]
    ensures Next(d, DoCreate(x.order, false, true))
              == d.(st := d.st.(fulfillments := d.st.fulfillments + [Fulfillment(x.order, false, Pending, None)]))
  {
    NoneLeft(before, f, x);
    hide Active, FindActive, OneActive;
  }

  lemma Finished(d: Desk, a: nat, f: nat, next: FulfillmentStatus, id: string)
    requires f < |d.st.fulfillments| && a < |d.attempts| && d.attempts[a] == Attempt(Advancing(f, next, id), true)
    ensures Next(d, Finish(a)).st.fulfillments == d.st.fulfillments[f := d.st.fulfillments[f].(status := next)]
  {
  }

  lemma TwoActive(fulfillments: seq<Fulfillment>, f: nat, x: Fulfillment)
    requires f < |fulfillments| && Active(fulfillments[f]) && Active(x) && x.order == fulfillments[f].order
    ensures !OneActive(fulfillments + [x])
  {
    var fs := fulfillments + [x];
    assert fs[f] == fulfillments[f] && fs[|fulfillments|] == x;
  }

  /** A fulfillment is created, assigned and given a shipment. */
  function Prepare(order: nat, f: nat, a: nat, number: string): seq<Step> {
    [DoCreate(order, false, true), BeginAdvancing(f, Assigned, "", false, true, false),
     BeginShipping(f, Route(true, Fulfilled, true, true), Some(number), false), Finish(a)]
  }

  /** The desk with one more order, whose fulfillment has a shipment. */
  function Stocked(d: Desk, order: nat, number: string): Desk {
    var f, s := |d.st.fulfillments|, |d.st.shipments|;
    Desk(d.st.(shipments := d.st.shipments + [Shipment(Of(f), Ready, Some(number))],
               fulfillments := d.st.fulfillments + [Fulfillment(order, false, At(Ready), Some(s))]),
         d.attempts + [Attempt(Linking(f, Assigned, s), false)])
  }

  lemma Prepared(d: Desk, order: nat, number: string)
    requires FindActive(d.st.fulfillments, order) == |d.st.fulfillments|
    requires !HasReference(d.st.shipments, Of(|d.st.fulfillments|))
    requires !Taken(d.st.shipments, number, |d.st.shipments|)
    ensures RunAll(d, Prepare(order, |d.st.fulfillments|, |d.attempts|, number)) == Stocked(d, order, number)
  {
    var f, steps := |d.st.fulfillments|, Prepare(order, |d.st.fulfillments|, |d.attempts|, number);
    FourSteps(d, steps[0], steps[1], steps[2], steps[3]);
    assert steps == [steps[0], steps[1], steps[2], steps[3]];
    hide RunAll, FindActive, HasReference, Taken, FindEvent;
    var x := Fulfillment(order, false, Pending, None);
    var two := d.(st := d.st.(fulfillments := d.st.fulfillments + [x.(status := Assigned)]));
    assert Next(Next(d, steps[0]), steps[1]) == two;
    Shipped(two, d, order, number);
  }

  lemma Shipped(two: Desk, d: Desk, order: nat, number: string)
    requires two == d.(st := d.st.(fulfillments := d.st.fulfillments + [Fulfillment(order, false, Assigned, None)]))
    requires !HasReference(d.st.shipments, Of(|d.st.fulfillments|))
    requires !Taken(d.st.shipments, number, |d.st.shipments|)
    ensures var steps := Prepare(order, |d.st.fulfillments|, |d.attempts|, number);
            Next(Next(two, steps[2]), steps[3]) == Stocked(d, order, number)
  {
    hide HasReference, Taken;
    var placed := two.st.(shipments := d.st.shipments + [Shipment(Of(|d.st.fulfillments|), Ready, Some(number))]);
    assert StartShip(two, Prepare(order, |d.st.fulfillments|, |d.attempts|, number)[2])
             == Open(two, placed, Linking(|d.st.fulfillments|, Assigned, |d.st.shipments|));
  }

  /** From empty tables: the pickup of a fulfillment is overtaken by its cancellation. */
  const REOPENED: seq<Step> :=
    Prepare(0, 0, 0, "T") + Overtake(Stocked(IDLE, 0, "T"), 0, At(PickedUp), At(Cancelled), "E")

  lemma ReopenedFromEmpty()
    ensures !OneActive(RunAll(IDLE, REOPENED).st.fulfillments) && !AlwaysOneActive(REOPENED)
    ensures !NeverReopens(REOPENED) && !AlwaysClosedStay(REOPENED)
  {
    var d := Stocked(IDLE, 0, "T");
    var more := Overtake(d, 0, At(PickedUp), At(Cancelled), "E");
    Prepared(IDLE, 0, "T");
    RunAppend(IDLE, Prepare(0, 0, 0, "T"), more);
    assert TablesInv(d.st) by { RowsStayUnique(Prepare(0, 0, 0, "T")); }
    OvertakenReopens(d, 0, At(PickedUp), At(Cancelled), "E");
    OneActiveIff(REOPENED);
    NeverOvertakenNeverReopens(REOPENED);
    ClosedStayIff(REOPENED);
  }

  /** Reopening is a case of overtaking. */
  lemma {:induction false} NeverOvertakenNeverReopens(steps: seq<Step>)
    ensures NeverOvertaken(steps) ==> NeverReopens(steps)
  {
    if steps != [] {
      NeverOvertakenNeverReopens(steps[..|steps| - 1]);
      RowsStayUnique(steps[..|steps| - 1]);
      hide Next, RunAll, DeskInv;
      ReopeningOvertakes(RunAll(IDLE, steps[..|steps| - 1]), steps[|steps| - 1]);
    }
  }

  lemma ReopeningOvertakes(d: Desk, e: Step)
    requires DeskInv(d)
    ensures Reopens(d, e) ==> Overtaken(d, e)
  {
    hide LogInv, RowsInv, HasOther;
    if Reopens(d, e) { assert WorkInv(d.st, d.attempts[e.a].work); }
  }

  // ---------------------------------------------------------------- delivered without a delivery

  /** One event id for the pickup of the second shipment and for the delivery of the first fulfillment. */
  const REUSED_EVENT: seq<Step> :=
    Prepare(0, 0, 0, "T0") + Prepare(1, 1, 1, "T1")
    + [BeginAdvancing(1, At(PickedUp), "E", false, true, false), Finish(2),
       BeginAdvancing(0, At(Delivered), "E", false, true, false), Drop(3)]

  lemma DeliveredByReuse(d: Desk)
    requires d.st.events == [] && |d.st.shipments| == 2 && |d.st.fulfillments| == 2 && |d.attempts| == 2
    requires forall f :: 0 <= f < 2 ==> d.st.fulfillments[f] == Fulfillment(f, false, At(Ready), Some(f))
    requires d.st.shipments[0].status == d.st.shipments[1].status == Ready && Tracked(d.st.shipments[1])
    ensures var st := RunAll(d, REUSED_EVENT[8..]).st;
            && |st.fulfillments| == 2 && !st.fulfillments[0].pickup && st.fulfillments[0].status == At(Delivered)
            && st.fulfillments[0].shipment == Some(0) && |st.shipments| == 2 && st.shipments[0].status == Ready
  {
    var e := REUSED_EVENT[8..];
    FourSteps(d, e[0], e[1], e[2], e[3]);
    assert e == [e[0], e[1], e[2], e[3]];
    hide RunAll;
    var moved := d.st.(shipments := d.st.shipments[1 := d.st.shipments[1].(status := PickedUp)],
                       events := [Event("E", 1, PickedUp)]);
    assert Next(d, e[0]) == Open(d, moved, Advancing(1, At(PickedUp), "E"));
    assert FindEvent(moved.events, "E") == 0;
  }

  /** From empty tables: the event of one shipment's pickup, given again for the delivery of another
      fulfillment, leaves that fulfillment delivered and its shipment where it was. */
  lemma DeliveredWithoutShipment()
    ensures var st := RunAll(IDLE, REUSED_EVENT).st;
            && |st.fulfillments| == 2 && !st.fulfillments[0].pickup && st.fulfillments[0].status == At(Delivered)
            && st.fulfillments[0].shipment == Some(0) && |st.shipments| == 2 && st.shipments[0].status == Ready
    ensures !NeverDishonest(REUSED_EVENT)
  {
    var one := Stocked(IDLE, 0, "T0");
    var two := Stocked(one, 1, "T1");
    Prepared(IDLE, 0, "T0");
    assert FindActive(one.st.fulfillments, 1) == 1;
    Prepared(one, 1, "T1");
    RunAppend(IDLE, Prepare(0, 0, 0, "T0"), Prepare(1, 1, 1, "T1"));
    RunAppend(IDLE, Prepare(0, 0, 0, "T0") + Prepare(1, 1, 1, "T1"), REUSED_EVENT[8..]);
    assert REUSED_EVENT == Prepare(0, 0, 0, "T0") + Prepare(1, 1, 1, "T1") + REUSED_EVENT[8..];
    DeliveredByReuse(two);
    DeliveredIsDeliveredIff(REUSED_EVENT);
    assert MirrorInv(RunAll(IDLE, REUSED_EVENT).st) ==> Mirrors(RunAll(IDLE, REUSED_EVENT).st, 0);
  }
}
