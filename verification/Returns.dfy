/** Item returns of one order: quantities that stay within what was ordered, and approved refunds that
    stay within half a unit per line of what was paid. An approval and a completion commit half-way, so
    each is two steps here.

    Quantities and prices count units of 0.0001. */
module Returns {
  import opened Money
  import opened Outcomes
  import opened Sums

  datatype OrderLine = OrderLine(price: int, quantity: int)

  datatype RequestStatus =
    | Requested | Approved | Rejected | Pickup | Received | Inspected | RefundApproved | Refunded | Cancelled

  datatype LineStatus = LineRequested | LineApproved | LineRejected | LineReceived | LineRefunded | LineCancelled

  /** A line of a return request. */
  datatype ReturnLine = ReturnLine(request: nat, line: nat, quantity: int, amount: int, status: LineStatus)

  /** A refund that was approved for a return request. */
  datatype Refund = Refund(request: nat, amount: int)

  datatype State = State(order: seq<OrderLine>, requests: seq<RequestStatus>, lines: seq<ReturnLine>,
                         refunds: seq<Refund>)

  datatype Error = NotDelivered | NoLines | DuplicateLine | UnknownLine | BadQuantity | ExceedsRemaining | NotFound
    | WrongState | NothingToRefund | RefundRefused

  predicate Counts(x: ReturnLine, l: nat) { x.line == l && x.status != LineRejected && x.status != LineCancelled }

  /** The quantity of an order line that is in active return lines. */
  function Returning(lines: seq<ReturnLine>, l: nat): int {
    if lines == [] then 0
    else Returning(lines[..|lines| - 1], l) + if Counts(lines[|lines| - 1], l) then lines[|lines| - 1].quantity else 0
  }

  function Amount(lines: seq<ReturnLine>, l: nat): int {
    if lines == [] then 0
    else Amount(lines[..|lines| - 1], l) + if Counts(lines[|lines| - 1], l) then lines[|lines| - 1].amount else 0
  }

  function Number(lines: seq<ReturnLine>, l: nat): nat {
    if lines == [] then 0
    else Number(lines[..|lines| - 1], l) + if Counts(lines[|lines| - 1], l) then 1 else 0
  }

  // ---------------------------------------------------------------- operations

  /** The first n requested items, each against what is left of its order line. */
  function AddLines(st: State, items: seq<(nat, int)>, n: nat): (r: Result<seq<ReturnLine>, Error>)
    requires n <= |items|
  {
    if n == 0 then Ok(st.lines)
    else
      var lines :- AddLines(st, items, n - 1);
      var (l, quantity) := items[n - 1];
      if exists k :: 0 <= k < n - 1 && items[k].0 == l then Err(DuplicateLine)
      else if l >= |st.order| then Err(UnknownLine)
      else if quantity <= 0 || quantity > st.order[l].quantity then Err(BadQuantity)
      else if Returning(lines, l) + quantity > st.order[l].quantity then Err(ExceedsRemaining)
      else Ok(lines + [ReturnLine(|st.requests|, l, quantity, ToUnits(st.order[l].price * quantity), LineRequested)])
  }

  function RequestItems(st: State, items: seq<(nat, int)>, delivered: bool): Result<State, Error> {
    if !delivered then Err(NotDelivered)
    else if items == [] then Err(NoLines)
    else
      var lines :- AddLines(st, items, |items|);
      Ok(st.(requests := st.requests + [Requested], lines := lines))
  }

  function Mark(lines: seq<ReturnLine>, r: nat, s: LineStatus): (m: seq<ReturnLine>)
    ensures |m| == |lines|
    ensures forall k :: 0 <= k < |m| ==> m[k] == if lines[k].request == r then lines[k].(status := s) else lines[k]
  {
    seq(|lines|, k requires 0 <= k < |lines| => if lines[k].request == r then lines[k].(status := s) else lines[k])
  }

  function SetRequest(st: State, r: nat, s: RequestStatus, lines: seq<ReturnLine>): State
    requires r < |st.requests|
  {
    st.(requests := st.requests[r := s], lines := lines)
  }

  function Review(st: State, r: nat, approve: bool): Result<State, Error> {
    if r >= |st.requests| then Err(NotFound)
    else if st.requests[r] != Requested then Err(WrongState)
    else Ok(SetRequest(st, r, if approve then Approved else Rejected,
                       Mark(st.lines, r, if approve then LineApproved else LineRejected)))
  }

  predicate NextStatus(from: RequestStatus, to: RequestStatus) {
    match from
    case Approved => to == Pickup || to == Cancelled
    case Pickup => to == Received || to == Cancelled
    case Received => to == Inspected
    case Inspected => to == RefundApproved
    case RefundApproved => to == Refunded
    case _ => false
  }

  function Advance(st: State, r: nat, to: RequestStatus): Result<State, Error> {
    if r >= |st.requests| then Err(NotFound)
    else if !NextStatus(st.requests[r], to) then Err(WrongState)
    else
      Ok(SetRequest(st, r, to,
        if to == Received then Mark(st.lines, r, LineReceived)
        else if to == Cancelled then Mark(st.lines, r, LineCancelled)
        else st.lines))
  }

  function RequestAmount(lines: seq<ReturnLine>, r: nat): int {
    if lines == [] then 0
    else RequestAmount(lines[..|lines| - 1], r)
         + if lines[|lines| - 1].request == r then lines[|lines| - 1].amount else 0
  }

  /** The first half of `approve_refund`: the refund is created, and committed, while the request is inspected. */
  function BeginApproval(st: State, r: nat, accepted: bool): Result<State, Error> {
    if r >= |st.requests| then Err(NotFound)
    else if st.requests[r] != Inspected then Err(WrongState)
    else if RequestAmount(st.lines, r) <= 0 then Err(NothingToRefund)
    else if !accepted then Err(RefundRefused)
    else Ok(st.(refunds := st.refunds + [Refund(r, RequestAmount(st.lines, r))]))
  }

  /** The second half: the request and its lines are written, whatever has become of them. */
  function Grant(st: State, r: nat): State
    requires r < |st.requests|
  {
    SetRequest(st, r, RefundApproved, Mark(st.lines, r, LineApproved))
  }

  /** `approve_refund`, when nothing comes between its commits. */
  function ApproveRefund(st: State, r: nat, accepted: bool): Result<State, Error> {
    var begun :- BeginApproval(st, r, accepted);
    Ok(Grant(begun, r))
  }

  /** What `complete_return_refund` checks; `accepted` tells whether the payment's refund succeeds. */
  function CheckCompletion(st: State, r: nat, accepted: bool): Option<Error> {
    if r >= |st.requests| then Some(NotFound)
    else if st.requests[r] == Refunded then if accepted then None else Some(RefundRefused)
    else if st.requests[r] != RefundApproved then Some(WrongState)
    else if !accepted then Some(RefundRefused)
    else None
  }

  function Conclude(st: State, r: nat): State
    requires r < |st.requests|
  {
    SetRequest(st, r, Refunded, Mark(st.lines, r, LineRefunded))
  }

  /** `complete_return_refund`, when nothing comes between its commits: a repeat changes nothing. */
  function CompleteRefund(st: State, r: nat, accepted: bool): Result<State, Error> {
    var refused := CheckCompletion(st, r, accepted);
    if refused.Some? then Err(refused.value)
    else Ok(if st.requests[r] == Refunded then st else Conclude(st, r))
  }

  // ---------------------------------------------------------------- steps

  /** An approval or a completion is open until it has written the request, or was cut short. */
  datatype Stage = Open | Done | Dropped

  datatype Attempt = Attempt(r: nat, completing: bool, stage: Stage)

  datatype Desk = Desk(st: State, attempts: seq<Attempt>)

  function Opening(order: seq<OrderLine>): Desk { Desk(State(order, [], [], []), []) }

  datatype Op =
    | OpRequest(items: seq<(nat, int)>, delivered: bool)
    | OpReview(r: nat, approve: bool)
    | OpAdvance(r: nat, next: RequestStatus)
    | OpApprove(r: nat, accepted: bool)
    | OpComplete(r: nat, accepted: bool)
    | OpFinish(a: nat)
    | OpDrop(a: nat)

  function Or(st: State, r: Result<State, Error>): State {
    match r
    case Ok(after) => after
    case Err(_) => st
  }

  function Start(d: Desk, st: State, r: nat, completing: bool): Desk {
    Desk(st, d.attempts + [Attempt(r, completing, Open)])
  }

  predicate IsOpen(d: Desk, a: nat) { a < |d.attempts| && d.attempts[a].stage == Open }

  function End(d: Desk, a: nat, stage: Stage): Desk
    requires a < |d.attempts|
  {
    d.(attempts := d.attempts[a := d.attempts[a].(stage := stage)])
  }

  function Write(st: State, a: Attempt): State {
    if a.r >= |st.requests| then st else if a.completing then Conclude(st, a.r) else Grant(st, a.r)
  }

  function Next(d: Desk, op: Op): Desk {
    match op
    case OpRequest(items, delivered) => d.(st := Or(d.st, RequestItems(d.st, items, delivered)))
    case OpReview(r, approve) => d.(st := Or(d.st, Review(d.st, r, approve)))
    case OpAdvance(r, next) => d.(st := Or(d.st, Advance(d.st, r, next)))
    case OpApprove(r, accepted) =>
      (match BeginApproval(d.st, r, accepted)
       case Ok(begun) => Start(d, begun, r, false)
       case Err(_) => d)
    case OpComplete(r, accepted) =>
      if CheckCompletion(d.st, r, accepted).Some? || d.st.requests[r] == Refunded then d else Start(d, d.st, r, true)
    case OpFinish(a) => if IsOpen(d, a) then End(d, a, Done).(st := Write(d.st, d.attempts[a])) else d
    case OpDrop(a) => if IsOpen(d, a) then End(d, a, Dropped) else d
  }

  function Run(d: Desk, ops: seq<Op>): Desk {
    if ops == [] then d else Next(Run(d, ops[..|ops| - 1]), ops[|ops| - 1])
  }

  /** Both halves with nothing in between are the whole call. */
  lemma ApproveAlone(d: Desk, r: nat, accepted: bool)
    ensures Next(Next(d, OpApprove(r, accepted)), OpFinish(|d.attempts|)).st
            == Or(d.st, ApproveRefund(d.st, r, accepted))
  {
    hide RequestAmount;
  }

  lemma CompleteAlone(d: Desk, r: nat, accepted: bool)
    ensures Next(Next(d, OpComplete(r, accepted)), OpFinish(|d.attempts|)).st
            == Or(d.st, CompleteRefund(d.st, r, accepted))
  {
  }

  // ---------------------------------------------------------------- the invariant

  predicate Inactive(s: LineStatus) { s == LineRejected || s == LineCancelled }

  ghost predicate LineInv(x: ReturnLine, order: seq<OrderLine>, requests: seq<RequestStatus>) {
    && x.request < |requests| && x.line < |order| && x.quantity > 0
    && x.amount == ToUnits(order[x.line].price * x.quantity)
    && (Inactive(x.status) <==> requests[x.request] in {Rejected, Cancelled})
  }

  ghost predicate Within(lines: seq<ReturnLine>, order: seq<OrderLine>) {
    forall l :: 0 <= l < |order| ==> Returning(lines, l) <= order[l].quantity
  }

  ghost predicate Inv(st: State) {
    && (forall x :: x in st.lines ==> LineInv(x, st.order, st.requests))
    && Within(st.lines, st.order)
  }

  /** An approval finds its request inspected, and nobody takes the request back from there. */
  predicate AttemptInv(st: State, a: Attempt) {
    && a.r < |st.requests|
    && (st.requests[a.r] in {RefundApproved, Refunded}
        || (st.requests[a.r] == Inspected && !a.completing && a.stage != Done))
  }

  ghost predicate DeskInv(d: Desk) { Inv(d.st) && forall a :: a in d.attempts ==> AttemptInv(d.st, a) }

  lemma ReturningMore(lines: seq<ReturnLine>, x: ReturnLine, l: nat)
    ensures Returning(lines + [x], l) == Returning(lines, l) + if Counts(x, l) then x.quantity else 0
  {
    assert (lines + [x])[..|lines|] == lines;
  }

  /** Changing the status of active lines never makes more of them active. */
  lemma {:induction false} MarkedIsLess(lines: seq<ReturnLine>, r: nat, s: LineStatus, l: nat)
    requires forall x :: x in lines ==> x.quantity > 0
    requires forall x :: x in lines && x.request == r ==> !Inactive(x.status)
    ensures Returning(Mark(lines, r, s), l) <= Returning(lines, l)
  {
    if lines != [] {
      var n := |lines| - 1;
      assert lines[n] in lines;
      assert Mark(lines, r, s)[..n] == Mark(lines[..n], r, s);
      MarkedIsLess(lines[..n], r, s, l);
    }
  }

  /** A request that is neither rejected nor cancelled moves on, with all its lines. */
  lemma SetRequestKeepsInv(st: State, r: nat, to: RequestStatus, s: LineStatus)
    requires Inv(st) && r < |st.requests| && st.requests[r] != Rejected && st.requests[r] != Cancelled
    requires Inactive(s) <==> to == Rejected || to == Cancelled
    ensures Inv(SetRequest(st, r, to, Mark(st.lines, r, s)))
  {
    var after := SetRequest(st, r, to, Mark(st.lines, r, s));
    forall l | 0 <= l < |st.order| ensures Returning(after.lines, l) <= st.order[l].quantity {
      MarkedIsLess(st.lines, r, s, l);
    }
    hide Returning;
    forall x | x in after.lines ensures LineInv(x, after.order, after.requests) {
      var k :| 0 <= k < |after.lines| && after.lines[k] == x;
      assert LineInv(st.lines[k], st.order, st.requests) by { assert st.lines[k] in st.lines; }
    }
  }

  lemma AdvanceKeepsInv(st: State, r: nat, to: RequestStatus)
    requires Inv(st) && Advance(st, r, to).Ok?
    ensures Inv(Advance(st, r, to).value)
  {
    hide Returning;
    if to == Received {
      SetRequestKeepsInv(st, r, to, LineReceived);
    } else if to == Cancelled {
      SetRequestKeepsInv(st, r, to, LineCancelled);
    } else {
      var after := Advance(st, r, to).value;
      forall x | x in after.lines ensures LineInv(x, after.order, after.requests) {
        assert LineInv(x, st.order, st.requests);
      }
    }
  }

  lemma {:induction false} AddLinesKeeps(st: State, items: seq<(nat, int)>, n: nat)
    requires Inv(st) && n <= |items| && AddLines(st, items, n).Ok?
    ensures var lines := AddLines(st, items, n).value;
            && (forall x :: x in lines ==> LineInv(x, st.order, st.requests + [Requested]))
            && Within(lines, st.order)
  {
    if n > 0 {
      AddLinesKeeps(st, items, n - 1);
      var before, after := AddLines(st, items, n - 1).value, AddLines(st, items, n).value;
      var x := after[|before|];
      hide AddLines, Returning;
      forall l | 0 <= l < |st.order| ensures Returning(after, l) <= st.order[l].quantity {
        ReturningMore(before, x, l);
      }
      hide Within;
      assert forall y :: y in after ==> y in before || y == x;
    } else {
      hide Returning;
      assert forall x :: x in st.lines ==> LineInv(x, st.order, st.requests);
    }
  }

  /** No step takes back a request whose refund is in hand. */
  predicate RequestsStay(st: State, after: State) {
    && after.order == st.order && |st.requests| <= |after.requests|
    && forall r :: 0 <= r < |st.requests| ==>
         && (st.requests[r] in {RefundApproved, Refunded} ==> after.requests[r] in {RefundApproved, Refunded})
         && (st.requests[r] == Inspected ==> after.requests[r] in {Inspected, RefundApproved, Refunded})
  }

  lemma TableStepKeepsInv(d: Desk, op: Op)
    requires Inv(d.st) && (op.OpRequest? || op.OpReview? || op.OpAdvance?)
    ensures Inv(Next(d, op).st) && RequestsStay(d.st, Next(d, op).st) && Next(d, op).st.refunds == d.st.refunds
  {
    var st := d.st;
    hide Inv, AddLines;
    match op
    case OpRequest(items, delivered) =>
      if RequestItems(st, items, delivered).Ok? {
        AddLinesKeeps(st, items, |items|);
        NewRequest(st, AddLines(st, items, |items|).value);
      }
    case OpReview(r, approve) =>
      if Review(st, r, approve).Ok? {
        SetRequestKeepsInv(st, r, if approve then Approved else Rejected,
                           if approve then LineApproved else LineRejected);
      }
    case OpAdvance(r, next) => if Advance(st, r, next).Ok? { AdvanceKeepsInv(st, r, next); }
  }

  lemma WriteKeepsInv(st: State, a: Attempt)
    requires Inv(st) && AttemptInv(st, a)
    ensures Inv(Write(st, a)) && RequestsStay(st, Write(st, a)) && Write(st, a).refunds == st.refunds
    ensures Write(st, a).requests[a.r] in {RefundApproved, Refunded}
  {
    hide Inv;
    if a.completing { SetRequestKeepsInv(st, a.r, Refunded, LineRefunded); }
    else { SetRequestKeepsInv(st, a.r, RefundApproved, LineApproved); }
  }

  lemma AttemptStays(st: State, after: State, a: Attempt)
    requires AttemptInv(st, a) && RequestsStay(st, after)
    ensures AttemptInv(after, a)
  {
  }

  lemma NextKeepsInv(d: Desk, op: Op)
    requires DeskInv(d)
    ensures DeskInv(Next(d, op)) && RequestsStay(d.st, Next(d, op).st)
  {
    var after := Next(d, op);
    hide Inv, RequestItems, Review, Advance, RequestAmount;
    match op {
      case OpRequest(_, _) => TableStepKeepsInv(d, op);
      case OpReview(_, _) => TableStepKeepsInv(d, op);
      case OpAdvance(_, _) => TableStepKeepsInv(d, op);
      case OpApprove(r, accepted) =>
        if BeginApproval(d.st, r, accepted).Ok? { OtherRefunds(d.st, after.st.refunds); }
      case OpComplete(_, _) =>
      case OpFinish(a) => if IsOpen(d, a) { WriteKeepsInv(d.st, d.attempts[a]); }
      case OpDrop(_) =>
    }
    forall x | x in after.attempts ensures AttemptInv(after.st, x) {
      var a :| 0 <= a < |after.attempts| && after.attempts[a] == x;
      if a < |d.attempts| {
        assert d.attempts[a] in d.attempts;
        AttemptStays(d.st, after.st, d.attempts[a]);
      }
    }
  }

  lemma OtherRefunds(st: State, refunds: seq<Refund>)
    requires Inv(st)
    ensures Inv(st.(refunds := refunds))
  {
    hide Within, LineInv;
  }

  lemma NewRequest(st: State, lines: seq<ReturnLine>)
    requires (forall x :: x in lines ==> LineInv(x, st.order, st.requests + [Requested])) && Within(lines, st.order)
    ensures Inv(st.(requests := st.requests + [Requested], lines := lines))
  {
    hide Within, LineInv;
  }

  /** Over every interleaving: statuses stay together and quantities within what was ordered. */
  lemma {:induction false} RunKeepsInv(order: seq<OrderLine>, ops: seq<Op>)
    requires forall o :: o in order ==> o.quantity >= 0
    ensures DeskInv(Run(Opening(order), ops)) && Run(Opening(order), ops).st.order == order
  {
    if ops == [] {
      OpeningInv(order);
    } else {
      hide DeskInv, Next;
      RunKeepsInv(order, ops[..|ops| - 1]);
      NextKeepsInv(Run(Opening(order), ops[..|ops| - 1]), ops[|ops| - 1]);
    }
  }

  lemma OpeningInv(order: seq<OrderLine>)
    requires forall o :: o in order ==> o.quantity >= 0
    ensures DeskInv(Opening(order))
  {
    assert forall k :: 0 <= k < |order| ==> order[k] in order;
  }

  // ---------------------------------------------------------------- amounts

  function Value(price: int, quantity: int): int { price * quantity }

  lemma ValueAdds(price: int, a: int, b: int)
    ensures Value(price, a + b) == Value(price, a) + Value(price, b)
  {
  }

  lemma LineAmount(price: int, quantity: int)
    ensures 2 * (ToUnits(price * quantity) * SCALE - Value(price, quantity)) <= SCALE
    ensures quantity % SCALE == 0 ==> ToUnits(price * quantity) * SCALE == Value(price, quantity)
  {
    HalfUpIsNearest(price * quantity, SCALE);
    if quantity % SCALE == 0 {
      var whole := quantity / SCALE;
      assert price * quantity == price * whole * SCALE by {
        assert quantity == whole * SCALE;
        MulAssoc(price, whole, SCALE);
      }
      UnitsOnGrid(price * whole);
    }
  }

  lemma MulAssoc(a: int, b: int, c: int)
    ensures a * (b * c) == a * b * c
  {
  }

  /** The refund amounts of an order line against the value of what is returned. */
  lemma {:induction false} AmountBound(lines: seq<ReturnLine>, price: int, l: nat)
    requires forall x :: x in lines && x.line == l ==> x.amount == ToUnits(price * x.quantity)
    ensures 2 * (Amount(lines, l) * SCALE - Value(price, Returning(lines, l))) <= Number(lines, l) * SCALE
    ensures (forall x :: x in lines && x.line == l ==> x.quantity % SCALE == 0) ==>
              Amount(lines, l) * SCALE == Value(price, Returning(lines, l))
  {
    if lines != [] {
      var n := |lines| - 1;
      var x := lines[n];
      assert x in lines;
      AmountBound(lines[..n], price, l);
      if Counts(x, l) {
        LineAmount(price, x.quantity);
        ValueAdds(price, Returning(lines[..n], l), x.quantity);
      }
      hide Value, ToUnits;
    }
  }

  lemma ValueOrder(price: int, a: int, b: int)
    requires price >= 0 && a <= b
    ensures Value(price, a) <= Value(price, b)
  {
  }

  /** The bound for one order line. */
  lemma LineBound(st: State, l: nat)
    requires Inv(st) && l < |st.order| && st.order[l].price >= 0
    ensures Returning(st.lines, l) <= st.order[l].quantity
    ensures 2 * (Amount(st.lines, l) * SCALE - Value(st.order[l].price, st.order[l].quantity))
            <= Number(st.lines, l) * SCALE
    ensures (forall x :: x in st.lines && x.line == l ==> x.quantity % SCALE == 0) ==>
              Amount(st.lines, l) * SCALE <= Value(st.order[l].price, st.order[l].quantity)
  {
    assert forall x :: x in st.lines && x.line == l ==> x.amount == ToUnits(st.order[l].price * x.quantity) by {
      assert forall x :: x in st.lines ==> LineInv(x, st.order, st.requests);
    }
    hide ToUnits, Amount, Number, Returning, Value, LineInv;
    AmountBound(st.lines, st.order[l].price, l);
    ValueOrder(st.order[l].price, Returning(st.lines, l), st.order[l].quantity);
  }

  /** Main result, over every interleaving of item-return steps: active return lines never hold more than was
      ordered, and their refund amounts exceed the value of the order line by at most half a unit per
      return line, and by nothing when the quantities are whole. */
  lemma ReturnsStayWithin(order: seq<OrderLine>, ops: seq<Op>, l: nat)
    requires l < |order| && order[l].price >= 0 && forall o :: o in order ==> o.quantity >= 0
    ensures var st := Run(Opening(order), ops).st;
            && Returning(st.lines, l) <= order[l].quantity
            && 2 * (Amount(st.lines, l) * SCALE - Value(order[l].price, order[l].quantity))
               <= Number(st.lines, l) * SCALE
            && ((forall x :: x in st.lines && x.line == l ==> x.quantity % SCALE == 0) ==>
                  Amount(st.lines, l) * SCALE <= Value(order[l].price, order[l].quantity))
  {
    RunKeepsInv(order, ops);
    LineBound(Run(Opening(order), ops).st, l);
  }

  ghost predicate NonNegative(lines: seq<ReturnLine>) { forall x :: x in lines ==> x.amount >= 0 }

  lemma AmountsNonNegative(st: State)
    requires Inv(st) && forall o :: o in st.order ==> o.price >= 0
    ensures NonNegative(st.lines)
  {
    forall x | x in st.lines ensures x.amount >= 0 {
      assert LineInv(x, st.order, st.requests);
      assert st.order[x.line] in st.order;
      ValueOrder(st.order[x.line].price, 0, x.quantity);
      HalfUpIsNearest(st.order[x.line].price * x.quantity, SCALE);
    }
  }

  /** No rejected or cancelled line becomes active again. */
  lemma InactiveStays(d: Desk, op: Op, k: nat)
    requires DeskInv(d) && k < |d.st.lines| && Inactive(d.st.lines[k].status)
    ensures k < |Next(d, op).st.lines| && Next(d, op).st.lines[k] == d.st.lines[k]
  {
    assert LineInv(d.st.lines[k], d.st.order, d.st.requests) by { assert d.st.lines[k] in d.st.lines; }
    if op.OpRequest? && RequestItems(d.st, op.items, op.delivered).Ok? { AddLinesAppends(d.st, op.items, |op.items|); }
    if op.OpFinish? && IsOpen(d, op.a) { assert AttemptInv(d.st, d.attempts[op.a]); }
    hide AddLines, Within, RequestAmount;
  }

  lemma {:induction false} AddLinesAppends(st: State, items: seq<(nat, int)>, n: nat)
    requires n <= |items| && AddLines(st, items, n).Ok?
    ensures |st.lines| <= |AddLines(st, items, n).value| && AddLines(st, items, n).value[..|st.lines|] == st.lines
  {
    if n > 0 { AddLinesAppends(st, items, n - 1); }
  }
}
