/** When a payment session opens, what it asks for, and what of it a capture or a later call may change. */
module SessionCalls {
  import opened Orders
  import opened Outcomes
  import opened PaymentSession
  import opened Sums
  import Discount

  /** The session asks for the customer's total, split into the totals of the orders in their order. */
  ghost predicate AsksFor(b: Book, s: Session) {
    && s.amount == b.total == SumOf(OrderTotal, b.orders) && s.currency == b.currency
    && |s.allocations| == |b.orders|
    && forall i :: 0 <= i < |b.orders| ==>
         && s.allocations[i].order == i && s.allocations[i].amount == b.orders[i].total
         && s.allocations[i].currency == b.currency
  }

  /** Main result: a session opens on orders of the customer's currency that each have something to pay; it names the
      provider and asks for what is to be paid now. */
  lemma OpensIff(d: Desk, provider: string)
    requires Inv(d) && d.session.None?
    ensures CreateSession(d, provider).Ok? <==>
              && d.book.orders != []
              && forall i :: 0 <= i < |d.book.orders| ==>
                   d.book.orders[i].currency == d.book.currency && d.book.orders[i].total > 0
    ensures CreateSession(d, provider).Ok? ==>
              && CreateSession(d, provider).value.session.Some?
              && var s := CreateSession(d, provider).value.session.value;
                 && CreateSession(d, provider).value == d.(session := Some(s))
                 && s.provider == provider && s.status == Pending && AsksFor(d.book, s)
  {
    var b := d.book;
    var s := Session(provider, b.total, b.currency, Pending, AllocationsFor(b.orders, b.currency));
    SumSame(ChildTotal, b.orders, OrderTotal, b.orders);
    assert SumOf(PayAmount, s.allocations) == b.total by { SumSame(PayAmount, s.allocations, ChildTotal, b.orders); }
    if b.orders != [] && forall i :: 0 <= i < |b.orders| ==> b.orders[i].total > 0 { PositiveSum(b.orders); }
    hide SumOf, Discount.StoredBook;
    ConservedIff(b, s);
  }

  lemma ConservedIff(b: Book, s: Session)
    requires TotalsPaired(b) && s.amount == b.total == SumOf(PayAmount, s.allocations) && s.currency == b.currency
    requires s.allocations == AllocationsFor(b.orders, b.currency)
    ensures Conserved(b, s) <==>
              b.orders != [] && forall i :: 0 <= i < |b.orders| ==> b.orders[i].currency == b.currency
  {
    hide SumOf;
    assert forall i :: 0 <= i < |s.allocations| ==> s.allocations[i] in s.allocations;
  }

  lemma {:induction false} PositiveSum(orders: seq<SellerOrder>)
    requires orders != [] && forall i :: 0 <= i < |orders| ==> orders[i].childTotal > 0
    ensures SumOf(ChildTotal, orders) > 0
  {
    var n := |orders| - 1;
    if n > 0 { PositiveSum(orders[..n]); }
  }

  /** Main result: a first capture marks the session with the given provider id and the order as paid; nothing else of
      the book or the session changes. */
  lemma CapturesAs(d: Desk, id: string, accepts: nat -> bool)
    requires Inv(d) && d.session.Some? && d.session.value.status == Pending && Capture(d, id, accepts).Ok?
    ensures var after := Capture(d, id, accepts).value;
            && after.session == Some(d.session.value.(status := Captured(id)))
            && after.book == d.book.(status := Paid) && FullyCaptured(after) && AsksFor(after.book, d.session.value)
  {
    CaptureKeepsInv(d, id, accepts);
    UnmovedTotals(d.book, d.session.value);
    hide Audit, SumOf, IntentsFor, Discount.StoredBook;
  }

  /** No call takes a session back or changes what it asks for. */
  lemma StepKeepsSession(d: Desk, op: Op)
    requires Inv(d) && d.session.Some?
    ensures Step(d, op).session.Some?
    ensures var s, t := d.session.value, Step(d, op).session.value;
            t == s || (s.status == Pending && op.CaptureSession? && t == s.(status := Captured(op.providerPaymentId)))
  {
    hide Audit, Conserved, IntentsFor, SumOf, Discount.Allocate, Inv;
  }

  ghost predicate CapturedIn(ops: seq<Op>, id: string) {
    exists op :: op in ops && op.CaptureSession? && op.providerPaymentId == id
  }

  /** Over every run: a session keeps its provider, its amount and its allocations, whatever is tried; once captured it
      keeps its provider id, which is that of one of the calls. */
  lemma {:induction false} SessionStays(d: Desk, ops: seq<Op>)
    requires Inv(d) && d.session.Some?
    ensures Run(d, ops).session.Some?
    ensures var s, t := d.session.value, Run(d, ops).session.value;
            t == s || exists id :: CapturedIn(ops, id) && s.status == Pending && t == s.(status := Captured(id))
    decreases |ops|
  {
    hide Inv, Step;
    if ops != [] {
      StepInv(d, ops[0]);
      StepKeepsSession(d, ops[0]);
      var next := Step(d, ops[0]);
      SessionStays(next, ops[1..]);
    }
  }

  lemma StepInv(d: Desk, op: Op)
    requires Inv(d)
    ensures Discount.StoredBook(d.book) && Inv(Step(d, op))
  {
    StepKeepsInv(d, op);
  }
}
