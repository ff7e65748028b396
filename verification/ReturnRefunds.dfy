/** Item refunds of one order: when what is approved stays within what was paid for the lines. */
module ReturnRefunds {
  import opened Money
  import opened Outcomes
  import opened Returns
  import opened Sums

  // ---------------------------------------------------------------- amounts of an order

  function RefundAmount(f: Refund): int { f.amount }

  /** The request has been inspected: its refund can be approved, is approved, or is paid. */
  predicate Granted(s: RequestStatus) { s in {Inspected, RefundApproved, Refunded} }

  /** What is in active return lines of the first n order lines. */
  function OrderAmount(lines: seq<ReturnLine>, n: nat): int {
    if n == 0 then 0 else OrderAmount(lines, n - 1) + Amount(lines, n - 1)
  }

  function OrderNumber(lines: seq<ReturnLine>, n: nat): nat {
    if n == 0 then 0 else OrderNumber(lines, n - 1) + Number(lines, n - 1)
  }

  /** The value of the first n order lines, in squared units. */
  function OrderValue(order: seq<OrderLine>, n: nat): int
    requires n <= |order|
  {
    if n == 0 then 0 else OrderValue(order, n - 1) + Value(order[n - 1].price, order[n - 1].quantity)
  }

  function ActiveLines(lines: seq<ReturnLine>): nat {
    if lines == [] then 0 else ActiveLines(lines[..|lines| - 1]) + if Inactive(lines[|lines| - 1].status) then 0 else 1
  }

  // ---------------------------------------------------------------- one refund per request

  /** What has been approved for the request. */
  function RefundedFor(refunds: seq<Refund>, r: nat): int {
    if refunds == [] then 0
    else
      RefundedFor(refunds[..|refunds| - 1], r)
      + if refunds[|refunds| - 1].request == r then refunds[|refunds| - 1].amount else 0
  }

  /** Nothing is approved beyond the amounts of a request's lines. */
  ghost predicate PaidWithin(st: State) {
    forall r :: 0 <= r < |st.requests| ==> RefundedFor(st.refunds, r) <= RequestAmount(st.lines, r)
  }

  predicate Approving(d: Desk, r: nat) { exists a :: a in d.attempts && a.r == r && !a.completing }

  /** An earlier approval of the request is under way, or was cut short. */
  predicate Unfinished(d: Desk, r: nat) { exists a :: a in d.attempts && a.r == r && !a.completing && a.stage != Done }

  /** A second approval begins. */
  predicate Resumes(d: Desk, op: Op) {
    op.OpApprove? && BeginApproval(d.st, op.r, op.accepted).Ok? && Unfinished(d, op.r)
  }

  /** Every approval that began has its refund, and no other request has one. */
  ghost predicate RefundsInv(d: Desk) {
    && (forall r :: 0 <= r < |d.st.requests| && Approving(d, r) ==>
          0 < RequestAmount(d.st.lines, r) <= RefundedFor(d.st.refunds, r))
    && (forall r :: 0 <= r && !Approving(d, r) ==> RefundedFor(d.st.refunds, r) == 0)
    && forall r :: 0 <= r < |d.st.requests| ==> RequestAmount(d.st.lines, r) >= 0
  }

  lemma OneMoreRefund(refunds: seq<Refund>, f: Refund, r: nat)
    ensures RefundedFor(refunds + [f], r) == RefundedFor(refunds, r) + if f.request == r then f.amount else 0
  {
    assert (refunds + [f])[..|refunds|] == refunds;
  }

  lemma {:induction false} MarksKeepAmount(lines: seq<ReturnLine>, q: nat, s: LineStatus, r: nat)
    ensures RequestAmount(Mark(lines, q, s), r) == RequestAmount(lines, r)
  {
    if lines != [] {
      assert Mark(lines, q, s)[..|lines| - 1] == Mark(lines[..|lines| - 1], q, s);
      MarksKeepAmount(lines[..|lines| - 1], q, s, r);
    }
  }

  /** The lines of a new request are nobody else's. */
  lemma {:induction false} NewLinesKeepAmount(st: State, items: seq<(nat, int)>, n: nat, r: nat)
    requires n <= |items| && AddLines(st, items, n).Ok? && r != |st.requests|
    ensures RequestAmount(AddLines(st, items, n).value, r) == RequestAmount(st.lines, r)
  {
    if n > 0 {
      NewLinesKeepAmount(st, items, n - 1, r);
      var before, after := AddLines(st, items, n - 1).value, AddLines(st, items, n).value;
      assert after[..|after| - 1] == before;
    }
  }

  /** Steps keep the amounts of every request. */
  lemma AmountsStay(d: Desk, op: Op, r: nat)
    requires r < |d.st.requests|
    ensures RequestAmount(Next(d, op).st.lines, r) == RequestAmount(d.st.lines, r)
  {
    hide RequestAmount, AddLines;
    match op
    case OpRequest(items, delivered) =>
      if RequestItems(d.st, items, delivered).Ok? { NewLinesKeepAmount(d.st, items, |items|, r); }
    case OpReview(q, approve) => MarksKeepAmount(d.st.lines, q, if approve then LineApproved else LineRejected, r);
    case OpAdvance(q, next) =>
      MarksKeepAmount(d.st.lines, q, if next == Received then LineReceived else LineCancelled, r);
    case OpFinish(a) =>
      if IsOpen(d, a) {
        MarksKeepAmount(d.st.lines, d.attempts[a].r, if d.attempts[a].completing then LineRefunded else LineApproved,
                        r);
      }
    case _ =>
  }

  lemma {:induction false} AmountNonNegative(lines: seq<ReturnLine>, r: nat)
    requires NonNegative(lines)
    ensures RequestAmount(lines, r) >= 0
  {
    if lines != [] { AmountNonNegative(lines[..|lines| - 1], r); }
  }

  /** Approvals are begun by `OpApprove`, and no other step adds one. */
  lemma ApprovingAfter(d: Desk, op: Op, r: nat)
    ensures Approving(Next(d, op), r) <==>
              Approving(d, r) || (op.OpApprove? && op.r == r && BeginApproval(d.st, op.r, op.accepted).Ok?)
  {
    hide RequestItems, Review, Advance, BeginApproval, Write, CheckCompletion;
    var after := Next(d, op);
    forall a | 0 <= a < |d.attempts|
      ensures |after.attempts| >= |d.attempts| && after.attempts[a].r == d.attempts[a].r
              && after.attempts[a].completing == d.attempts[a].completing
    {
    }
    if Approving(d, r) {
      var a :| 0 <= a < |d.attempts| && d.attempts[a].r == r && !d.attempts[a].completing;
      assert after.attempts[a] in after.attempts;
    }
    if Approving(after, r) {
      var a :| 0 <= a < |after.attempts| && after.attempts[a].r == r && !after.attempts[a].completing;
      if a < |d.attempts| { assert d.attempts[a] in d.attempts; }
    }
    if op.OpApprove? && op.r == r && BeginApproval(d.st, op.r, op.accepted).Ok? {
      assert after.attempts[|d.attempts|] in after.attempts;
    }
  }

  lemma RefundsAfter(d: Desk, op: Op)
    ensures Next(d, op).st.refunds ==
              if op.OpApprove? && BeginApproval(d.st, op.r, op.accepted).Ok?
              then d.st.refunds + [Refund(op.r, RequestAmount(d.st.lines, op.r))] else d.st.refunds
  {
    hide AddLines, RequestAmount;
  }

  predicate Begins(d: Desk, op: Op) { op.OpApprove? && BeginApproval(d.st, op.r, op.accepted).Ok? }

  /** Steps that begin no approval. */
  lemma QuietKeepsRefunds(d: Desk, op: Op)
    requires DeskInv(d) && RefundsInv(d) && !Begins(d, op) && NonNegative(Next(d, op).st.lines)
    ensures RefundsInv(Next(d, op)) && (PaidWithin(d.st) ==> PaidWithin(Next(d, op).st))
  {
    var after := Next(d, op);
    NextKeepsInv(d, op);
    RefundsAfter(d, op);
    forall r: nat ensures Approving(after, r) <==> Approving(d, r) { ApprovingAfter(d, op, r); }
    forall r: nat | Approving(d, r) ensures r < |d.st.requests| { ApprovingInRange(d, r); }
    forall r | 0 <= r < |after.st.requests| ensures RequestAmount(after.st.lines, r) >= 0 {
      AmountNonNegative(after.st.lines, r);
    }
    forall r | 0 <= r < |d.st.requests| ensures RequestAmount(after.st.lines, r) == RequestAmount(d.st.lines, r) {
      AmountsStay(d, op, r);
    }
    hide Next, Inv, RequestAmount, RefundedFor, Approving, AttemptInv;
  }

  lemma ApprovingInRange(d: Desk, r: nat)
    requires DeskInv(d) && Approving(d, r)
    ensures r < |d.st.requests|
  {
  }

  /** Steps that begin one: it is the request's second if and only if an earlier one is unfinished. */
  lemma ApprovalKeepsRefunds(d: Desk, op: Op)
    requires DeskInv(d) && RefundsInv(d) && Begins(d, op)
    ensures RefundsInv(Next(d, op)) && (PaidWithin(d.st) ==> (PaidWithin(Next(d, op).st) <==> !Unfinished(d, op.r)))
  {
    var after := Next(d, op);
    RefundsAfter(d, op);
    InspectedIsUnfinished(d, op.r, op.accepted);
    forall r: nat ensures Approving(after, r) <==> Approving(d, r) || r == op.r { ApprovingAfter(d, op, r); }
    forall r: nat
      ensures RefundedFor(after.st.refunds, r)
                == RefundedFor(d.st.refunds, r) + if r == op.r then RequestAmount(d.st.lines, r) else 0
    {
      OneMoreRefund(d.st.refunds, Refund(op.r, RequestAmount(d.st.lines, op.r)), r);
    }
    assert after.st.lines == d.st.lines && after.st.requests == d.st.requests;
    hide Next, Inv, RequestAmount, RefundedFor, Approving, Unfinished, AttemptInv;
    assert RefundedFor(after.st.refunds, op.r) <= RequestAmount(after.st.lines, op.r) <==> !Unfinished(d, op.r);
  }

  /** Of an inspected request, an approval that began is one that did not finish. */
  lemma InspectedIsUnfinished(d: Desk, r: nat, accepted: bool)
    requires DeskInv(d) && BeginApproval(d.st, r, accepted).Ok?
    ensures r < |d.st.requests| && 0 < RequestAmount(d.st.lines, r) && (Unfinished(d, r) <==> Approving(d, r))
  {
    hide Inv, RequestAmount;
    if Approving(d, r) {
      var a :| a in d.attempts && a.r == r && !a.completing;
      assert AttemptInv(d.st, a);
    }
  }

  lemma NextKeepsRefunds(d: Desk, op: Op)
    requires DeskInv(d) && RefundsInv(d) && NonNegative(Next(d, op).st.lines)
    ensures RefundsInv(Next(d, op)) && (PaidWithin(d.st) ==> (PaidWithin(Next(d, op).st) <==> !Resumes(d, op)))
  {
    hide DeskInv, RefundsInv, PaidWithin, Next, NonNegative, Unfinished;
    if Begins(d, op) { ApprovalKeepsRefunds(d, op); } else { QuietKeepsRefunds(d, op); }
  }

  ghost predicate AlwaysPaidWithin(order: seq<OrderLine>, ops: seq<Op>) {
    PaidWithin(Run(Opening(order), ops).st) && (ops != [] ==> AlwaysPaidWithin(order, ops[..|ops| - 1]))
  }

  predicate NeverResumes(order: seq<OrderLine>, ops: seq<Op>) {
    ops != [] ==>
      NeverResumes(order, ops[..|ops| - 1]) && !Resumes(Run(Opening(order), ops[..|ops| - 1]), ops[|ops| - 1])
  }

  lemma {:induction false} RunKeepsRefunds(order: seq<OrderLine>, ops: seq<Op>)
    requires forall o :: o in order ==> o.quantity >= 0 && o.price >= 0
    ensures RefundsInv(Run(Opening(order), ops)) && NonNegative(Run(Opening(order), ops).st.lines)
  {
    RunKeepsInv(order, ops);
    AmountsNonNegative(Run(Opening(order), ops).st);
    if ops != [] {
      var init := ops[..|ops| - 1];
      RunKeepsRefunds(order, init);
      RunKeepsInv(order, init);
      hide DeskInv, RefundsInv, NonNegative, Next;
      NextKeepsRefunds(Run(Opening(order), init), ops[|ops| - 1]);
    }
  }

  /** Main result, over every interleaving: what is approved for a request stays within its lines' amounts at all
      times if and only if no approval of it begins while an earlier one is under way or was cut short. */
  lemma {:induction false} AlwaysPaidWithinIff(order: seq<OrderLine>, ops: seq<Op>)
    requires forall o :: o in order ==> o.quantity >= 0 && o.price >= 0
    ensures AlwaysPaidWithin(order, ops) <==> NeverResumes(order, ops)
    ensures AlwaysPaidWithin(order, ops) ==> PaidWithin(Run(Opening(order), ops).st)
  {
    if ops == [] {
      assert Run(Opening(order), ops) == Opening(order);
    } else {
      var init := ops[..|ops| - 1];
      AlwaysPaidWithinIff(order, init);
      RunKeepsInv(order, init);
      RunKeepsRefunds(order, init);
      RunKeepsRefunds(order, ops);
      hide DeskInv, RefundsInv, NonNegative, Next, PaidWithin, Resumes;
      NextKeepsRefunds(Run(Opening(order), init), ops[|ops| - 1]);
    }
  }

  /** An approval that is cut short after its first commit, and a retry: two refunds of the same lines, of which the
      request knows one. */
  lemma RetryRefundsTwice(d: Desk, r: nat)
    requires DeskInv(d) && r < |d.st.requests| && d.st.requests[r] == Inspected && RequestAmount(d.st.lines, r) > 0
    ensures var n, f := |d.attempts|, Refund(r, RequestAmount(d.st.lines, r));
            var again := Next(Next(Next(Next(d, OpApprove(r, true)), OpDrop(n)), OpApprove(r, true)), OpFinish(n + 1));
            && again.st == Grant(d.st, r).(refunds := d.st.refunds + [f] + [f])
            && (RefundsInv(d) ==> !PaidWithin(again.st))
  {
    var n, f := |d.attempts|, Refund(r, RequestAmount(d.st.lines, r));
    var first := Next(Next(d, OpApprove(r, true)), OpDrop(n));
    assert first.st == d.st.(refunds := d.st.refunds + [f]);
    var second := Next(first, OpApprove(r, true));
    assert second.st == d.st.(refunds := d.st.refunds + [f] + [f]) && IsOpen(second, n + 1);
    OneMoreRefund(d.st.refunds, f, r);
    OneMoreRefund(d.st.refunds + [f], f, r);
    MarksKeepAmount(d.st.lines, r, LineApproved, r);
    hide Inv, RequestAmount, RefundedFor, Approving;
    if RefundsInv(d) { NothingYetOrCovered(d, r); }
  }

  lemma NothingYetOrCovered(d: Desk, r: nat)
    requires RefundsInv(d) && r < |d.st.requests|
    ensures RefundedFor(d.st.refunds, r) >= 0
  {
    hide RequestAmount, RefundedFor, Approving;
    assert Approving(d, r) || !Approving(d, r);
  }

  /** One more return line, in the totals of the order. */
  lemma {:induction false} OrderAmountMore(lines: seq<ReturnLine>, x: ReturnLine, n: nat)
    ensures OrderAmount(lines + [x], n) == OrderAmount(lines, n)
            + if x.line < n && !Inactive(x.status) then x.amount else 0
    ensures OrderNumber(lines + [x], n) == OrderNumber(lines, n) + if x.line < n && !Inactive(x.status) then 1 else 0
  {
    if n > 0 {
      OrderAmountMore(lines, x, n - 1);
      assert (lines + [x])[..|lines|] == lines;
    }
  }

  lemma {:induction false} NothingReturned(n: nat)
    ensures OrderAmount([], n) == 0 && OrderNumber([], n) == 0
  {
    if n > 0 { NothingReturned(n - 1); }
  }

  /** Granted lines are active lines of the order. */
  lemma {:induction false} GrantedWithinOrder(lines: seq<ReturnLine>, order: seq<OrderLine>,
                                              requests: seq<RequestStatus>)
    requires NonNegative(lines) && forall x :: x in lines ==> LineInv(x, order, requests)
    ensures GrantedByRequest(lines, requests, |requests|) <= OrderAmount(lines, |order|)
    ensures OrderNumber(lines, |order|) == ActiveLines(lines)
  {
    if lines == [] {
      NothingReturned(|order|);
      NothingGranted(requests, |requests|);
    } else {
      var init, x := lines[..|lines| - 1], lines[|lines| - 1];
      assert lines == init + [x] && x in lines && LineInv(x, order, requests);
      GrantedWithinOrder(init, order, requests);
      GrantedOneMore(init, x, requests, |requests|);
      OrderAmountMore(init, x, |order|);
    }
  }

  lemma {:induction false} OrderBound(st: State, n: nat)
    requires Inv(st) && n <= |st.order| && forall o :: o in st.order ==> o.price >= 0
    ensures 2 * (OrderAmount(st.lines, n) * SCALE - OrderValue(st.order, n)) <= OrderNumber(st.lines, n) * SCALE
    ensures (forall x :: x in st.lines ==> x.quantity % SCALE == 0) ==>
              OrderAmount(st.lines, n) * SCALE <= OrderValue(st.order, n)
  {
    if n > 0 {
      OrderBound(st, n - 1);
      LineBound(st, n - 1);
      hide Amount, Number, Value, Inv;
    }
  }

  // ---------------------------------------------------------------- the order as a whole

  /** The lines' amounts of the first n requests that are granted. */
  function GrantedByRequest(lines: seq<ReturnLine>, requests: seq<RequestStatus>, n: nat): int
    requires n <= |requests|
  {
    if n == 0 then 0
    else GrantedByRequest(lines, requests, n - 1) + if Granted(requests[n - 1]) then RequestAmount(lines, n - 1) else 0
  }

  function RefundedByRequest(refunds: seq<Refund>, n: nat): int {
    if n == 0 then 0 else RefundedByRequest(refunds, n - 1) + RefundedFor(refunds, n - 1)
  }

  lemma {:induction false} GrantedOneMore(lines: seq<ReturnLine>, x: ReturnLine, requests: seq<RequestStatus>, n: nat)
    requires n <= |requests|
    ensures GrantedByRequest(lines + [x], requests, n)
         == GrantedByRequest(lines, requests, n) + if x.request < n && Granted(requests[x.request]) then x.amount else 0
  {
    if n > 0 {
      GrantedOneMore(lines, x, requests, n - 1);
      assert (lines + [x])[..|lines|] == lines;
    }
  }

  lemma {:induction false} NothingGranted(requests: seq<RequestStatus>, n: nat)
    requires n <= |requests|
    ensures GrantedByRequest([], requests, n) == 0
  {
    if n > 0 { NothingGranted(requests, n - 1); }
  }

  lemma {:induction false} RefundedOneMore(refunds: seq<Refund>, f: Refund, n: nat)
    ensures RefundedByRequest(refunds + [f], n) == RefundedByRequest(refunds, n) + if f.request < n then f.amount else 0
  {
    if n > 0 {
      RefundedOneMore(refunds, f, n - 1);
      OneMoreRefund(refunds, f, n - 1);
    }
  }

  lemma {:induction false} NothingRefunded(n: nat)
    ensures RefundedByRequest([], n) == 0
  {
    if n > 0 { NothingRefunded(n - 1); }
  }

  lemma {:induction false} RefundedEitherWay(refunds: seq<Refund>, n: nat)
    requires forall f :: f in refunds ==> f.request < n
    ensures SumOf(RefundAmount, refunds) == RefundedByRequest(refunds, n)
  {
    if refunds == [] {
      NothingRefunded(n);
    } else {
      var init, f := refunds[..|refunds| - 1], refunds[|refunds| - 1];
      assert refunds == init + [f] && f in refunds;
      RefundedEitherWay(init, n);
      RefundedOneMore(init, f, n);
      SumAppend(RefundAmount, init, f);
    }
  }

  /** Request by request: what is not granted has no refund, and what is has at most its lines' amounts. */
  lemma {:induction false} RefundsCovered(d: Desk, n: nat)
    requires DeskInv(d) && RefundsInv(d) && PaidWithin(d.st) && n <= |d.st.requests|
    ensures RefundedByRequest(d.st.refunds, n) <= GrantedByRequest(d.st.lines, d.st.requests, n)
  {
    if n > 0 {
      RefundsCovered(d, n - 1);
      if Approving(d, n - 1) { ApprovingIsGranted(d, n - 1); }
      hide Inv, RequestAmount, RefundedFor, Approving, AttemptInv;
    }
  }

  lemma ApprovingIsGranted(d: Desk, r: nat)
    requires DeskInv(d) && Approving(d, r)
    ensures r < |d.st.requests| && Granted(d.st.requests[r])
  {
    hide Inv;
  }

  /** Refunds are of requests that exist. */
  lemma {:induction false} RefundsInRange(order: seq<OrderLine>, ops: seq<Op>)
    requires forall o :: o in order ==> o.quantity >= 0
    ensures var st := Run(Opening(order), ops).st; forall f :: f in st.refunds ==> f.request < |st.requests|
  {
    if ops != [] {
      var init, op := ops[..|ops| - 1], ops[|ops| - 1];
      var d := Run(Opening(order), init);
      RefundsInRange(order, init);
      RunKeepsInv(order, init);
      NextKeepsInv(d, op);
      RefundsAfter(d, op);
      if Begins(d, op) { InspectedIsUnfinished(d, op.r, op.accepted); }
      hide Next, Inv, AttemptInv, BeginApproval, RequestAmount;
    }
  }

  /** Main result: as long as no approval begins over an unfinished one, the item refunds approved for an order
      exceed the value of its lines by at most half a unit per active return line, and by nothing when the
      quantities are whole, whatever is interleaved. */
  lemma RefundsStayWithin(order: seq<OrderLine>, ops: seq<Op>)
    requires (forall o :: o in order ==> o.quantity >= 0 && o.price >= 0) && NeverResumes(order, ops)
    ensures var st := Run(Opening(order), ops).st;
            && 2 * (SumOf(RefundAmount, st.refunds) * SCALE - OrderValue(order, |order|))
               <= ActiveLines(st.lines) * SCALE
            && ((forall x :: x in st.lines ==> x.quantity % SCALE == 0) ==>
                  SumOf(RefundAmount, st.refunds) * SCALE <= OrderValue(order, |order|))
  {
    var d := Run(Opening(order), ops);
    RunKeepsInv(order, ops);
    RunKeepsRefunds(order, ops);
    AlwaysPaidWithinIff(order, ops);
    RefundsInRange(order, ops);
    hide Run, RefundsInv, PaidWithin, AlwaysPaidWithin, NeverResumes;
    RefundsCovered(d, |d.st.requests|);
    RefundedEitherWay(d.st.refunds, |d.st.requests|);
    GrantedWithinOrder(d.st.lines, d.st.order, d.st.requests);
    OrderBound(d.st, |order|);
  }

  // ---------------------------------------------------------------- a retry from an order of one item

  /** One item of one unit, returned whole; the approval is cut short and retried. */
  const RETRIED: seq<Op> := [
    OpRequest([(0, SCALE)], true), OpReview(0, true), OpAdvance(0, Pickup), OpAdvance(0, Received),
    OpAdvance(0, Inspected), OpApprove(0, true), OpDrop(0), OpApprove(0, true), OpFinish(1)]

  const ONE_ITEM: seq<OrderLine> := [OrderLine(SCALE, SCALE)]

  lemma Then(d: Desk, ops: seq<Op>, op: Op)
    ensures Run(d, ops + [op]) == Next(Run(d, ops), op)
  {
    assert (ops + [op])[..|ops|] == ops;
  }

  lemma FourMore(d: Desk, ops: seq<Op>, a: Op, b: Op, c: Op, e: Op)
    ensures Run(d, ops + [a, b, c, e]) == Next(Next(Next(Next(Run(d, ops), a), b), c), e)
  {
    hide Run, Next;
    Then(d, ops, a);
    Then(d, ops + [a], b);
    Then(d, ops + [a] + [b], c);
    Then(d, ops + [a] + [b] + [c], e);
    assert ops + [a, b, c, e] == ops + [a] + [b] + [c] + [e];
  }

  /** The desk of the item once its return is in the given status. */
  function ItemAt(status: RequestStatus, line: LineStatus): Desk {
    Desk(State(ONE_ITEM, [status], [ReturnLine(0, 0, SCALE, SCALE, line)], []), [])
  }

  lemma ItemRequested()
    ensures Next(Opening(ONE_ITEM), RETRIED[0]) == ItemAt(Requested, LineRequested)
  {
    var st, items := Opening(ONE_ITEM).st, [(0, SCALE)];
    assert AddLines(st, items, 0) == Ok([]);
    assert ToUnits(SCALE * SCALE) == SCALE;
    assert items[0] == (0, SCALE);
    assert AddLines(st, items, 1).Ok?
           && AddLines(st, items, 1).value == [ReturnLine(0, 0, SCALE, SCALE, LineRequested)];
  }

  lemma ItemReviewed()
    ensures var d := ItemAt(Requested, LineRequested);
            Next(Next(Next(Next(d, RETRIED[1]), RETRIED[2]), RETRIED[3]), RETRIED[4]) == ItemAt(Inspected, LineReceived)
  {
    assert Next(ItemAt(Requested, LineRequested), RETRIED[1]) == ItemAt(Approved, LineApproved);
    assert Next(ItemAt(Approved, LineApproved), RETRIED[2]) == ItemAt(Pickup, LineApproved);
    assert Next(ItemAt(Pickup, LineApproved), RETRIED[3]) == ItemAt(Received, LineReceived);
  }

  lemma ItemInspected()
    ensures Run(Opening(ONE_ITEM), RETRIED[..5]) == ItemAt(Inspected, LineReceived)
  {
    var d, e := Opening(ONE_ITEM), RETRIED;
    ItemRequested();
    ItemReviewed();
    hide Run, Next, ItemAt;
    assert Run(d, []) == d by { NoOps(d); }
    Then(d, [], e[0]);
    FourMore(d, [e[0]], e[1], e[2], e[3], e[4]);
    assert [] + [e[0]] == [e[0]] && [e[0]] + [e[1], e[2], e[3], e[4]] == e[..5];
  }

  lemma NoOps(d: Desk)
    ensures Run(d, []) == d
  {
  }

  lemma TwiceTheItem()
    ensures var f := Refund(0, SCALE);
            SumOf(RefundAmount, [f, f]) == 2 * SCALE && OrderValue(ONE_ITEM, 1) == SCALE * SCALE
  {
    var f := Refund(0, SCALE);
    SumAppend(RefundAmount, [], f);
    SumAppend(RefundAmount, [f], f);
    assert [] + [f] == [f] && [f] + [f] == [f, f];
    assert OrderValue(ONE_ITEM, 0) == 0;
  }

  lemma OneActiveLine(x: ReturnLine)
    ensures ActiveLines([x]) <= 1 && RequestAmount([x], x.request) == x.amount
  {
    assert [x][..0] == [] && ActiveLines([]) == 0 && RequestAmount([], x.request) == 0;
  }

  lemma ItemRetried()
    ensures var st := Run(Opening(ONE_ITEM), RETRIED).st;
            st.refunds == [Refund(0, SCALE), Refund(0, SCALE)] && ActiveLines(st.lines) <= 1
  {
    var d, e, five := Opening(ONE_ITEM), RETRIED, ItemAt(Inspected, LineReceived);
    var x := five.st.lines[0];
    ItemInspected();
    RunKeepsInv(ONE_ITEM, e[..5]);
    OneActiveLine(x);
    OneActiveLine(x.(status := LineApproved));
    hide DeskInv, RequestAmount, Run, Next, RefundsInv, ActiveLines;
    RetryRefundsTwice(five, 0);
    FourMore(d, e[..5], e[5], e[6], e[7], e[8]);
    assert e[..5] + [e[5], e[6], e[7], e[8]] == e;
    assert Mark([x], 0, LineApproved) == [x.(status := LineApproved)];
    var f := Refund(0, SCALE);
    assert [] + [f] + [f] == [f, f];
  }

  /** From an order of one item: twice its price is approved, and the bound of `RefundsStayWithin` fails. */
  lemma RetriedFromOrder()
    ensures var st := Run(Opening(ONE_ITEM), RETRIED).st;
            && st.refunds == [Refund(0, SCALE), Refund(0, SCALE)]
            && 2 * (SumOf(RefundAmount, st.refunds) * SCALE - OrderValue(ONE_ITEM, 1)) > ActiveLines(st.lines) * SCALE
    ensures !NeverResumes(ONE_ITEM, RETRIED)
  {
    ItemRetried();
    TwiceTheItem();
    hide Run, Next, OrderValue, ActiveLines, NeverResumes, SumOf;
    if NeverResumes(ONE_ITEM, RETRIED) { RefundsStayWithin(ONE_ITEM, RETRIED); }
  }
}
