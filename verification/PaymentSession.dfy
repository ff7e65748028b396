/** The customer's payment session: one charge, allocated to the seller orders and captured once. */
module PaymentSession {
  import opened Money
  import opened Orders
  import opened Outcomes
  import opened Sums
  import Checkout
  import Discount

  datatype PayAllocation = PayAllocation(order: nat, amount: int, currency: string)

  datatype SessionStatus = Pending | Captured(providerPaymentId: string)

  datatype Session = Session(
    provider: string, amount: int, currency: string, status: SessionStatus, allocations: seq<PayAllocation>)

  /** A captured payment intent; its provider payment id is the session's, suffixed by the allocation. */
  datatype Intent = Intent(order: nat, amount: int, currency: string, providerPaymentId: (string, nat))

  datatype Desk = Desk(book: Book, session: Option<Session>, intents: seq<Intent>)

  datatype Error =
    | DiscountRejected(reason: Discount.Error)
    | NotAwaitingPayment
    | NoSellerOrders
    | TotalsDoNotReconcile
    | AllocationMismatch
    | ConstraintViolation
    | ConservationViolation
    | ProviderIdRequired
    | SessionNotFound
    | CapturedWithOtherId
    | IntentRejected
    | AuditFailed

  function PayAmount(a: PayAllocation): int { a.amount }

  function IntentAmount(i: Intent): int { i.amount }

  function AllocationsFor(orders: seq<SellerOrder>, currency: string): (r: seq<PayAllocation>)
    ensures |r| == |orders|
    ensures forall i :: 0 <= i < |orders| ==> r[i] == PayAllocation(i, orders[i].childTotal, currency)
  {
    seq(|orders|, i requires 0 <= i < |orders| => PayAllocation(i, orders[i].childTotal, currency))
  }

  /** `assert_payment_conservation`. */
  predicate Conserved(b: Book, s: Session) {
    && s.allocations != []
    && s.currency == b.currency && s.amount == b.total
    && SumOf(PayAmount, s.allocations) == s.amount
    && forall a :: a in s.allocations ==>
         && a.order < |b.orders| && a.currency == s.currency == b.orders[a.order].currency
         && a.amount == b.orders[a.order].childTotal == b.orders[a.order].total
  }

  function CreateSession(d: Desk, provider: string): Result<Desk, Error> {
    var b := d.book;
    if b.status != PendingPayment then Err(NotAwaitingPayment)
    else if d.session.Some? then Ok(d)
    else if b.orders == [] then Err(NoSellerOrders)
    else if SumOf(ChildTotal, b.orders) != b.total then Err(TotalsDoNotReconcile)
    else if b.total <= 0 then Err(ConstraintViolation)
    else if exists o :: o in b.orders && (o.currency != b.currency || o.total != o.childTotal) then
      Err(AllocationMismatch)
    else if exists o :: o in b.orders && o.childTotal <= 0 then Err(ConstraintViolation)
    else
      var s := Session(provider, b.total, b.currency, Pending, AllocationsFor(b.orders, b.currency));
      if Conserved(b, s) then Ok(d.(session := Some(s))) else Err(ConservationViolation)
  }

  function IntentsFor(s: Session, providerPaymentId: string): (r: seq<Intent>)
    ensures |r| == |s.allocations|
    ensures forall i :: 0 <= i < |r| ==>
      r[i] == Intent(s.allocations[i].order, s.allocations[i].amount, s.allocations[i].currency, (providerPaymentId, i))
  {
    seq(|s.allocations|, i requires 0 <= i < |s.allocations| =>
      Intent(s.allocations[i].order, s.allocations[i].amount, s.allocations[i].currency, (providerPaymentId, i)))
  }

  /** `capture_payment_session`. `accepts` says whether the registry and the journal accept the
      intent of the i-th allocation. */
  function Capture(d: Desk, providerPaymentId: string, accepts: nat -> bool): Result<Desk, Error> {
    if providerPaymentId == "" then Err(ProviderIdRequired)
    else if d.session.None? then Err(SessionNotFound)
    else
      var s := d.session.value;
      match s.status
      case Captured(id) => if id == providerPaymentId then Ok(d) else Err(CapturedWithOtherId)
      case Pending =>
        if !Conserved(d.book, s) then Err(ConservationViolation)
        else if exists i :: 0 <= i < |s.allocations| && (s.allocations[i].amount <= 0 || !accepts(i)) then
          Err(IntentRejected)
        else if exists a :: a in s.allocations && !(a.order < |d.book.orders| && Audit(d.book, a.order)) then
          Err(AuditFailed)
        else Ok(Desk(d.book.(status := Paid), Some(s.(status := Captured(providerPaymentId))),
                     d.intents + IntentsFor(s, providerPaymentId)))
  }

  // ---------------------------------------------------------------- runs

  datatype Op =
    | AllocateDiscount(request: Discount.Request)
    | OpenSession(provider: string)
    | CaptureSession(providerPaymentId: string, accepts: nat -> bool)

  function Perform(d: Desk, op: Op): Result<Desk, Error>
    requires Discount.StoredBook(d.book)
  {
    match op
    case AllocateDiscount(request) =>
      var r := Discount.Allocate(d.book, request);
      if r.Ok? then Ok(d.(book := r.value)) else Err(DiscountRejected(r.error))
    case OpenSession(provider) => CreateSession(d, provider)
    case CaptureSession(id, accepts) => Capture(d, id, accepts)
  }

  /** A rejected operation changes nothing. */
  function Step(d: Desk, op: Op): Desk
    requires Discount.StoredBook(d.book)
  {
    var r := Perform(d, op);
    if r.Ok? then r.value else d
  }

  ghost predicate TotalsPaired(b: Book) {
    && SumOf(ChildTotal, b.orders) == b.total
    && forall i :: 0 <= i < |b.orders| ==> b.orders[i].childTotal == b.orders[i].total
  }

  ghost predicate SessionCoversOrders(b: Book, s: Session) {
    && |s.allocations| == |b.orders| > 0
    && s.currency == b.currency
    && SumOf(PayAmount, s.allocations) == s.amount
    && forall i :: 0 <= i < |s.allocations| ==>
         s.allocations[i].order == i && s.allocations[i].amount > 0 && s.allocations[i].currency == s.currency
  }

  /** Everything charged: session, customer order, seller orders and captured intents agree. */
  ghost predicate FullyCaptured(d: Desk) {
    && d.session.Some? && d.session.value.status.Captured?
    && d.book.status == Paid
    && d.session.value.amount == d.book.total == SumOf(ChildTotal, d.book.orders) == SumOf(OrderTotal, d.book.orders)
    && SumOf(IntentAmount, d.intents) == d.session.value.amount
    && |d.intents| == |d.book.orders|
    && forall i :: 0 <= i < |d.intents| ==>
         && d.intents[i].order == i && d.intents[i].amount == d.book.orders[i].total
         && d.intents[i].currency == d.session.value.currency == d.book.currency
         && d.intents[i].providerPaymentId == (d.session.value.status.providerPaymentId, i)
  }

  ghost predicate Inv(d: Desk) {
    && Discount.StoredBook(d.book)
    && TotalsPaired(d.book)
    && (d.session.Some? ==> SessionCoversOrders(d.book, d.session.value))
    && (if d.session.Some? && d.session.value.status.Captured? then FullyCaptured(d)
        else d.intents == [] && d.book.status == PendingPayment)
  }

  lemma DiscountKeepsInv(d: Desk, request: Discount.Request)
    requires Inv(d)
    ensures Inv(Step(d, AllocateDiscount(request)))
  {
    if Discount.Allocate(d.book, request).Ok? {
      Discount.TotalsStayPaired(d.book, request);
    }
  }

  lemma OpenKeepsInv(d: Desk, provider: string)
    requires Inv(d)
    ensures Inv(Step(d, OpenSession(provider)))
  {
    hide Audit;
    assert forall i :: 0 <= i < |d.book.orders| ==> d.book.orders[i] in d.book.orders;
  }

  /** The intents created for a conserved session pay every order's total, in order. */
  lemma IntentsPayOrders(b: Book, s: Session, id: string)
    requires Conserved(b, s) && SessionCoversOrders(b, s) && TotalsPaired(b)
    ensures SumOf(IntentAmount, IntentsFor(s, id)) == s.amount == b.total == SumOf(OrderTotal, b.orders)
    ensures forall i :: 0 <= i < |b.orders| ==>
              && IntentsFor(s, id)[i].order == i && IntentsFor(s, id)[i].amount == b.orders[i].total
              && IntentsFor(s, id)[i].currency == s.currency == b.currency
  {
    SumSame(IntentAmount, IntentsFor(s, id), PayAmount, s.allocations);
    SumSame(ChildTotal, b.orders, OrderTotal, b.orders);
    forall i | 0 <= i < |b.orders|
      ensures s.allocations[i].amount == b.orders[i].total && s.allocations[i].currency == b.currency
    {
      assert s.allocations[i] in s.allocations;
    }
  }

  lemma CaptureKeepsInv(d: Desk, id: string, accepts: nat -> bool)
    requires Inv(d)
    ensures Inv(Step(d, CaptureSession(id, accepts)))
  {
    hide Audit, Conserved, IntentsFor, SumOf;
    if Capture(d, id, accepts).Ok? && d.session.value.status == Pending {
      IntentsPayOrders(d.book, d.session.value, id);
      assert [] + IntentsFor(d.session.value, id) == IntentsFor(d.session.value, id);
    }
  }

  lemma StepKeepsInv(d: Desk, op: Op)
    requires Inv(d)
    ensures Inv(Step(d, op))
  {
    match op
    case AllocateDiscount(request) => DiscountKeepsInv(d, request);
    case OpenSession(provider) => OpenKeepsInv(d, provider);
    case CaptureSession(id, accepts) => CaptureKeepsInv(d, id, accepts);
  }

  ghost function Run(d: Desk, ops: seq<Op>): (r: Desk)
    requires Inv(d)
    ensures Inv(r)
    decreases |ops|
  {
    if ops == [] then d
    else
      StepKeepsInv(d, ops[0]);
      Run(Step(d, ops[0]), ops[1..])
  }

  /** Once captured, no discount, session or capture step changes anything, and the only accepted
      capture is a repeat of the same provider payment id. */
  lemma CapturedIsFinal(d: Desk, op: Op)
    requires Inv(d) && d.session.Some? && d.session.value.status.Captured?
    ensures Step(d, op) == d
    ensures op.CaptureSession? && op.providerPaymentId != "" ==>
              (Perform(d, op).Ok? <==> op.providerPaymentId == d.session.value.status.providerPaymentId)
  {
  }

  /** Main result, over every run from a freshly checked-out book: a captured session has collected
      exactly the customer total, order by order, and whatever is tried afterwards it stays so. */
  lemma {:induction false} CaptureConservesMoney(d: Desk, before: seq<Op>, after: seq<Op>)
    requires Inv(d)
    requires Run(d, before).session.Some? && Run(d, before).session.value.status.Captured?
    ensures FullyCaptured(Run(d, before))
    ensures Run(Run(d, before), after) == Run(d, before)
    decreases |after|
  {
    if after != [] {
      CapturedIsFinal(Run(d, before), after[0]);
      CaptureConservesMoney(d, before, after[1..]);
    }
  }

  lemma FreshBook(b: Book)
    requires AuditAll(b) && b.orders != [] && b.status == PendingPayment && Discount.StoredBook(b)
    requires forall i :: 0 <= i < |b.orders| ==> b.orders[i].total == b.orders[i].childTotal
    ensures Inv(Desk(b, None, []))
  {
    assert Audit(b, 0);
  }

  /** The desk on the book of any successful checkout satisfies the invariant. */
  lemma FreshDesk(rows: seq<Checkout.CartRow>, quotes: seq<Checkout.Quote>, rules: map<int, Checkout.FeeRule>,
                  market: int)
    requires Checkout.CheckoutCart(rows, quotes, rules, market).Ok?
    ensures Inv(Desk(Checkout.CheckoutCart(rows, quotes, rules, market).value, None, []))
  {
    hide Checkout.CheckoutCart, OrderConstraints, AuditAll;
    Checkout.CheckedOutBook(rows, quotes, rules, market);
    FreshBook(Checkout.CheckoutCart(rows, quotes, rules, market).value);
  }

  // ---------------------------------------------------------------- from the cart to the charge

  /** The discounts recorded for the first n seller orders. */
  function DiscountsOf(b: Book, n: nat): int {
    if n == 0 then 0 else DiscountsOf(b, n - 1) + Discount.PriorDiscount(b, n - 1)
  }

  /** Orders whose totals pass their audit add up to the amounts of the orders less what was discounted. */
  lemma {:induction false} AuditedTotals(b: Book, n: nat)
    requires n <= |b.orders| && forall i :: 0 <= i < n ==> OrderChecks(b.orders[i], RowsOf(b.discounts, i))
    ensures SumOf(OrderTotal, b.orders[..n])
            == SumOf(OrderSubtotal, b.orders[..n]) + SumOf(OrderShipping, b.orders[..n]) - DiscountsOf(b, n)
  {
    if n > 0 {
      AuditedTotals(b, n - 1);
      assert b.orders[..n][..n - 1] == b.orders[..n - 1];
    }
  }

  lemma AuditedTotal(b: Book)
    requires AuditAll(b) && b.orders != []
    ensures SumOf(OrderTotal, b.orders) == b.subtotal + b.shipping - DiscountsOf(b, |b.orders|)
  {
    forall i | 0 <= i < |b.orders| ensures OrderChecks(b.orders[i], RowsOf(b.discounts, i)) { assert Audit(b, i); }
    assert Audit(b, 0);
    AuditedTotals(b, |b.orders|);
    assert b.orders[..|b.orders|] == b.orders;
  }

  /** What the cart came to is kept, and what was captured has passed the audit. */
  ghost predicate ChargedInv(d: Desk, subtotal: int, shipping: int) {
    && Inv(d) && d.book.subtotal == subtotal && d.book.shipping == shipping
    && (d.session.Some? && d.session.value.status.Captured? ==> AuditAll(d.book))
  }

  lemma StepKeepsCharged(d: Desk, op: Op, subtotal: int, shipping: int)
    requires ChargedInv(d, subtotal, shipping)
    ensures ChargedInv(Step(d, op), subtotal, shipping)
  {
    hide AuditAll;
    StepKeepsInv(d, op);
    if d.session.Some? && d.session.value.status.Captured? {
      CapturedIsFinal(d, op);
    } else {
      match op
      case AllocateDiscount(request) =>
        if Discount.Allocate(d.book, request).Ok? { Discount.SameShape(d.book, request, |request.items|); }
      case OpenSession(provider) =>
      case CaptureSession(id, accepts) =>
        if d.session.Some? && Capture(d, id, accepts).Ok? {
          CapturableIff(d, id, accepts);
          StatusIsNotAudited(d.book);
        }
    }
    hide Inv;
  }

  lemma StatusIsNotAudited(b: Book)
    requires AuditAll(b)
    ensures AuditAll(b.(status := Paid))
  {
    forall i | 0 <= i < |b.orders| ensures Audit(b.(status := Paid), i) { assert Audit(b, i); }
  }

  lemma {:induction false} RunKeepsCharged(d: Desk, ops: seq<Op>, subtotal: int, shipping: int)
    requires ChargedInv(d, subtotal, shipping)
    ensures ChargedInv(Run(d, ops), subtotal, shipping)
    decreases |ops|
  {
    if ops != [] {
      StepKeepsCharged(d, ops[0], subtotal, shipping);
      RunKeepsCharged(Step(d, ops[0]), ops[1..], subtotal, shipping);
    }
  }

  /** Main result, from the cart to the charge: whatever discounts, sessions and capture attempts follow a
      checkout, a captured session has collected the rounded value of the cart and the quoted shipping, less
      the discounts on record, order by order. */
  lemma ChargedForCart(rows: seq<Checkout.CartRow>, quotes: seq<Checkout.Quote>, rules: map<int, Checkout.FeeRule>,
                       market: int, ops: seq<Op>)
    requires Checkout.CheckoutCart(rows, quotes, rules, market).Ok?
    ensures var desk := Desk(Checkout.CheckoutCart(rows, quotes, rules, market).value, None, []);
            && Inv(desk)
            && var d := Run(desk, ops);
               d.session.Some? && d.session.value.status.Captured? ==>
                 && FullyCaptured(d)
                 && SumOf(IntentAmount, d.intents)
                    == ToUnits(SumOf(Checkout.LineFine, rows)) + SumOf(Checkout.QuoteFee, quotes)
                       - DiscountsOf(d.book, |d.book.orders|)
  {
    var b := Checkout.CheckoutCart(rows, quotes, rules, market).value;
    FreshDesk(rows, quotes, rules, market);
    Checkout.CheckedOutBook(rows, quotes, rules, market);
    NothingOff(b, |b.orders|);
    AuditedTotal(b);
    SumSame(ChildTotal, b.orders, OrderTotal, b.orders);
    RunKeepsCharged(Desk(b, None, []), ops, b.subtotal, b.shipping);
    var d := Run(Desk(b, None, []), ops);
    hide Checkout.CheckoutCart, Checkout.LineFine, ToUnits, AuditAll, OrderConstraints;
    if d.session.Some? && d.session.value.status.Captured? { AuditedTotal(d.book); }
  }

  lemma {:induction false} NothingOff(b: Book, n: nat)
    requires b.discounts == []
    ensures DiscountsOf(b, n) == 0
  {
    if n > 0 { NothingOff(b, n - 1); }
  }

  /** In a book of one currency, a covering session is conserved exactly when no total has moved. */
  lemma UnmovedTotals(b: Book, s: Session)
    requires TotalsPaired(b) && SessionCoversOrders(b, s)
    ensures Conserved(b, s) ==> forall i :: 0 <= i < |b.orders| ==> b.orders[i].total == s.allocations[i].amount
    ensures AuditAll(b) && (forall i :: 0 <= i < |b.orders| ==> b.orders[i].total == s.allocations[i].amount) ==>
              Conserved(b, s)
  {
    assert forall i :: 0 <= i < |s.allocations| ==> s.allocations[i] in s.allocations;
    if AuditAll(b) && forall i :: 0 <= i < |b.orders| ==> b.orders[i].total == s.allocations[i].amount {
      SumSame(PayAmount, s.allocations, ChildTotal, b.orders);
      forall i | 0 <= i < |b.orders| ensures b.orders[i].currency == b.currency {
        assert Audit(b, i);
      }
    }
  }

  /** A pending session can be captured if and only if the provider id is given, every intent is
      accepted, the orders pass their audit, and no order total moved since the session was opened. */
  lemma CapturableIff(d: Desk, id: string, accepts: nat -> bool)
    requires Inv(d) && d.session.Some? && d.session.value.status == Pending
    ensures Capture(d, id, accepts).Ok? <==>
      && id != "" && (forall i :: 0 <= i < |d.book.orders| ==> accepts(i)) && AuditAll(d.book)
      && forall i :: 0 <= i < |d.book.orders| ==> d.book.orders[i].total == d.session.value.allocations[i].amount
  {
    var s, b := d.session.value, d.book;
    UnmovedTotals(b, s);
    if AuditAll(b) { assert Audit(b, 0); }
    if Capture(d, id, accepts).Ok? {
      forall i | 0 <= i < |b.orders| ensures Audit(b, i) && accepts(i) {
        assert s.allocations[i] in s.allocations;
      }
    }
  }
}
