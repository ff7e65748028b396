/** The order desk: the code that discounts a customer order, opens its payment session and
    captures it, with the rows as fields that are updated in place. */
module OrderDesk {
  import opened Money
  import opened Orders
  import opened Outcomes
  import opened PaymentSession
  import opened Sums
  import D = Discount
  import Split

  class Service {
    var book: Book
    var session: Option<Session>
    var intents: seq<Intent>

    constructor (book: Book)
      requires D.StoredBook(book)
      ensures Snapshot() == Desk(book, None, []) && Valid()
    {
      this.book := book;
      session, intents := None, [];
    }

    ghost predicate Valid()
      reads this
    {
      D.StoredBook(book)
    }

    function Snapshot(): Desk
      reads this
    {
      Desk(book, session, intents)
    }

    /** Discount the seller orders, all requested allocations or none. */
    method AllocateOrderDiscount(request: D.Request) returns (r: Result<Desk, PaymentSession.Error>)
      requires Valid()
      modifies this
      ensures Valid()
      ensures r == old(Perform(Snapshot(), AllocateDiscount(request)))
      ensures Snapshot() == old(Step(Snapshot(), AllocateDiscount(request)))
    {
      if book.status != PendingPayment { return Err(DiscountRejected(D.LockedAfterPayment)); }
      if request.currency.Some? && request.currency.value != book.currency {
        return Err(DiscountRejected(D.CurrencyMismatch));
      }
      hide D.ApplyItem;
      var working, total := book, 0;
      for n := 0 to |request.items|
        invariant unchanged(this)
        invariant D.ApplyItems(book, request, n) == Ok(working)
        invariant total == SumOf(D.ItemAmount, request.items[..n])
      {
        var item := request.items[n];
        var applied := AllocateItem(working, request, n);
        if applied.Err? {
          ItemFails(book, request, n);
          return Err(DiscountRejected(applied.error));
        }
        working := applied.value;
        total := total + item.amount;
        assert request.items[..n + 1][..n] == request.items[..n];
      }
      assert request.items[..|request.items|] == request.items;
      if total > book.subtotal { return Err(DiscountRejected(D.ExceedsCustomerSubtotal)); }
      var customerTotal := CustomerTotal(working.orders);
      book := working.(total := customerTotal);
      r := Ok(Snapshot());
    }

    /** Open the order's payment session, or return the one that exists. */
    method CreatePaymentSession(provider: string) returns (r: Result<Desk, PaymentSession.Error>)
      requires Valid()
      modifies this
      ensures Valid()
      ensures r == old(Perform(Snapshot(), OpenSession(provider)))
      ensures Snapshot() == old(Step(Snapshot(), OpenSession(provider)))
    {
      if book.status != PendingPayment { return Err(NotAwaitingPayment); }
      if session.Some? { return Ok(Snapshot()); }
      if book.orders == [] { return Err(NoSellerOrders); }
      if SumOf(ChildTotal, book.orders) != book.total { return Err(TotalsDoNotReconcile); }
      if book.total <= 0 { return Err(ConstraintViolation); }
      if exists o :: o in book.orders && (o.currency != book.currency || o.total != o.childTotal) {
        return Err(AllocationMismatch);
      }
      if exists o :: o in book.orders && o.childTotal <= 0 { return Err(ConstraintViolation); }
      var allocations := [];
      for i := 0 to |book.orders|
        invariant allocations == AllocationsFor(book.orders, book.currency)[..i]
      {
        allocations := allocations + [PayAllocation(i, book.orders[i].childTotal, book.currency)];
      }
      assert allocations == AllocationsFor(book.orders, book.currency);
      var s := Session(provider, book.total, book.currency, Pending, allocations);
      if !Conserved(book, s) { return Err(ConservationViolation); }
      session := Some(s);
      r := Ok(Snapshot());
    }

    /** Capture the session: one intent per allocation, then the session and the customer order. */
    method CapturePaymentSession(providerPaymentId: string, accepts: nat -> bool)
      returns (r: Result<Desk, PaymentSession.Error>)
      requires Valid()
      modifies this
      ensures Valid()
      ensures r == old(Perform(Snapshot(), CaptureSession(providerPaymentId, accepts)))
      ensures Snapshot() == old(Step(Snapshot(), CaptureSession(providerPaymentId, accepts)))
    {
      if providerPaymentId == "" { return Err(ProviderIdRequired); }
      if session.None? { return Err(SessionNotFound); }
      var s := session.value;
      if s.status.Captured? {
        if s.status.providerPaymentId == providerPaymentId { return Ok(Snapshot()); }
        return Err(CapturedWithOtherId);
      }
      if !Conserved(book, s) { return Err(ConservationViolation); }
      var created := CreateIntents(s, providerPaymentId, accepts);
      if created.None? { return Err(IntentRejected); }
      var audited := AuditAllocations(book, s);
      if !audited { return Err(PaymentSession.AuditFailed); }
      intents := intents + created.value;
      session := Some(s.(status := Captured(providerPaymentId)));
      book := book.(status := Paid);
      r := Ok(Snapshot());
    }
  }

  /** One verified, captured intent per allocation, unless one of them is not accepted. */
  method CreateIntents(s: Session, providerPaymentId: string, accepts: nat -> bool) returns (r: Option<seq<Intent>>)
    ensures r == if exists i :: 0 <= i < |s.allocations| && (s.allocations[i].amount <= 0 || !accepts(i)) then None
                 else Some(IntentsFor(s, providerPaymentId))
  {
    var created := [];
    for i := 0 to |s.allocations|
      invariant created == IntentsFor(s, providerPaymentId)[..i]
      invariant forall k :: 0 <= k < i ==> s.allocations[k].amount > 0 && accepts(k)
    {
      var a := s.allocations[i];
      if a.amount <= 0 || !accepts(i) { return None; }
      created := created + [Intent(a.order, a.amount, a.currency, (providerPaymentId, i))];
    }
    assert created == IntentsFor(s, providerPaymentId);
    r := Some(created);
  }

  /** The audit of every order that the session pays for. */
  method AuditAllocations(b: Book, s: Session) returns (ok: bool)
    requires Conserved(b, s)
    ensures ok <==> forall a :: a in s.allocations ==> a.order < |b.orders| && Audit(b, a.order)
  {
    hide Audit;
    for i := 0 to |s.allocations|
      invariant forall k :: 0 <= k < i ==> s.allocations[k].order < |b.orders| && Audit(b, s.allocations[k].order)
    {
      assert s.allocations[i] in s.allocations;
      if !Audit(b, s.allocations[i].order) { return false; }
    }
    ok := true;
  }

  /** What the seller orders cost the customer together. */
  method CustomerTotal(orders: seq<SellerOrder>) returns (total: int)
    ensures total == SumOf(ChildTotal, orders)
  {
    total := 0;
    for i := 0 to |orders|
      invariant total == SumOf(ChildTotal, orders[..i])
    {
      assert orders[..i + 1][..i] == orders[..i];
      total := total + orders[i].childTotal;
    }
    assert orders[..|orders|] == orders;
  }

  /** The body of the allocation loop. */
  method AllocateItem(b: Book, request: D.Request, n: nat) returns (r: Result<Book, D.Error>)
    requires D.StoredBook(b) && n < |request.items|
    ensures r == if request.items[n].amount >= 0 && D.FundedParts(request.funding, request.items[n]).Ok?
            && D.SeenBefore(request.items, n)
                 then Err(D.DuplicateSellerOrder) else D.ApplyItem(b, request, request.items[n])
  {
    var item := request.items[n];
    if item.amount < 0 { return Err(D.NegativeDiscount); }
    var parts :- D.FundedParts(request.funding, item);
    if D.SeenBefore(request.items, n) { return Err(D.DuplicateSellerOrder); }
    if item.order < 0 || item.order >= |b.orders| { return Err(D.UnknownSellerOrder); }
    var o := b.orders[item.order];
    if item.amount > o.subtotal { return Err(D.ExceedsSellerSubtotal); }
    var existing := D.FindRow(b.discounts, item.order, request.promotion, request.coupon);
    if existing.Some? {
      var e := existing.value;
      if e.amount != item.amount || e.sellerAmount != parts.0 || e.platformAmount != parts.1 {
        return Err(D.ExistsWithOtherFunding);
      }
      return Ok(b);
    }
    var allocations := SpreadOverLines(o.allocations, o.lines, o.subtotal, parts.0);
    var total := o.subtotal + o.shipping - item.amount;
    var p := o.payout;
    var payout := p.(sellerFunded := p.sellerFunded + parts.0, platformFunded := p.platformFunded + parts.1,
                     net := p.gross - (p.sellerFunded + parts.0) - p.fee);
    var o' := o.(total := total, childTotal := total, allocations := allocations, payout := payout);
    if !OrderConstraints(o') { return Err(D.ConstraintViolation); }
    var row := DiscountRow(item.order, o.seller, request.promotion, request.coupon, request.funding,
                           item.amount, parts.0, parts.1, b.currency);
    r := Ok(b.(orders := b.orders[item.order := o'], discounts := b.discounts + [row]));
  }

  /** The inner loop over the order's lines: `remaining` ends on the last line. */
  method SpreadOverLines(rows: seq<Allocation>, lines: seq<int>, whole: nat, sellerFunded: int)
    returns (allocations: seq<Allocation>)
    requires |rows| == |lines| > 0
    ensures allocations == D.SpreadLines(rows, Split.Shares(Split.HalfEven, sellerFunded, lines, whole))
  {
    ghost var shares := Split.Shares(Split.HalfEven, sellerFunded, lines, whole);
    hide D.SpreadLine, Split.Share, Split.Shares, Split.HandedOut;
    Split.NothingHandedOut(Split.HalfEven, sellerFunded, lines, whole);
    var remaining := sellerFunded;
    allocations := [];
    for idx := 0 to |lines|
      invariant |allocations| == idx
      invariant forall k :: 0 <= k < idx ==> allocations[k] == D.SpreadLine(rows[k], shares[k])
      invariant idx < |lines| ==>
                  remaining == sellerFunded - Split.HandedOut(Split.HalfEven, sellerFunded, lines[..idx], whole)
    {
      var share := remaining;
      Split.ShareAt(Split.HalfEven, sellerFunded, lines, whole, idx);
      if idx != |lines| - 1 {
        share := Split.Share(Split.HalfEven, sellerFunded, lines[idx], whole);
        Split.HandOutNext(Split.HalfEven, sellerFunded, lines, whole, idx);
      }
      remaining := remaining - share;
      allocations := allocations + [D.SpreadLine(rows[idx], share)];
    }
  }

  /** The first allocation that is rejected decides the outcome of the request. */
  lemma ItemFails(b: Book, request: D.Request, n: nat)
    requires D.StoredBook(b) && n < |request.items|
    requires D.ApplyItems(b, request, n).Ok? && D.ApplyItems(b, request, n + 1).Err?
    ensures D.ApplyItems(b, request, |request.items|) == D.ApplyItems(b, request, n + 1)
  {
    FailureSticks(b, request, n + 1, |request.items|);
  }

  lemma {:induction false} FailureSticks(b: Book, request: D.Request, n: nat, m: nat)
    requires D.StoredBook(b) && n <= m <= |request.items| && D.ApplyItems(b, request, n).Err?
    ensures D.ApplyItems(b, request, m) == D.ApplyItems(b, request, n)
  {
    if n < m { FailureSticks(b, request, n, m - 1); }
  }
}
