/** What stands behind a payout that is released: a delivery, or a dispute that was dismissed before there was one. */
module PayoutGate {
  import opened OrderLife
  import opened Outcomes
  import opened RefundBooking
  import opened RefundRetry
  import opened SellerBalance
  import opened SellerInvariant
  import opened SellerLedger

  /** The call delivers order i. */
  predicate Delivers(db: Db, op: Op, i: nat) {
    op.OpDelivered? && op.i == i && op.delivered && Perform(db, op).error.None?
  }

  /** The call closes the open dispute of order i against the buyer, which completes the order. */
  predicate Dismisses(db: Db, op: Op, i: nat) {
    && op.OpResolveDispute? && op.i == i && i < |db.orders| && i < |db.disputes|
    && op.decision != Open && op.decision != Resolved && db.disputes[i] == Some(Open) && db.orders[i].status == Disputed
  }

  predicate WasDelivered(start: Db, ops: seq<Op>, i: nat) {
    ops != [] &&
    (WasDelivered(start, ops[..|ops| - 1], i) || Delivers(Run(start, ops[..|ops| - 1]), ops[|ops| - 1], i))
  }

  /** A dispute was dismissed while the order had not been delivered. */
  predicate DismissedEarly(start: Db, ops: seq<Op>, i: nat) {
    ops != [] &&
    (DismissedEarly(start, ops[..|ops| - 1], i)
     || (Dismisses(Run(start, ops[..|ops| - 1]), ops[|ops| - 1], i) && !WasDelivered(start, ops[..|ops| - 1], i)))
  }

  predicate IsCompleted(db: Db, i: nat) { i < |db.orders| && db.orders[i].status == Completed }

  /** Eligible, in process or paid. */
  predicate Released(db: Db, i: nat) {
    && i < |db.payouts|
    && (db.payouts[i].status == Eligible || db.payouts[i].status == InProcess || db.payouts[i].status == PaidOut)
  }

  /** At every point of the run: if order i is completed, it has been delivered. */
  predicate CompletedWasDelivered(start: Db, ops: seq<Op>, i: nat) {
    && (ops != [] ==> CompletedWasDelivered(start, ops[..|ops| - 1], i))
    && (IsCompleted(Run(start, ops), i) ==> WasDelivered(start, ops, i))
  }

  // ---------------------------------------------------------------- one call

  /** An order becomes complete by its delivery or by a dismissal. */
  lemma CompletesBy(db: Db, op: Op, i: nat)
    requires Inv(db) && RefundsInv(db) && i < |db.orders|
    ensures IsCompleted(Perform(db, op).db, i) && !IsCompleted(db, i) ==> Delivers(db, op, i) || Dismisses(db, op, i)
  {
    OrderMoves(db, op, i);
    LedgerSizes(db);
    hide Inv, RefundsInv, BalanceAudit, Settle, RequestPayout, MarkPayoutPaid, CompleteReturnRefund, RequestReturn,
         AdvanceReturn, ApproveRefund, CreateRefund, CompletePaymentRefund;
  }

  lemma DismissalCompletes(db: Db, op: Op, i: nat)
    requires Dismisses(db, op, i)
    ensures IsCompleted(Perform(db, op).db, i)
  {
  }

  /** A payout is released by the delivery of its order, or once the order is complete. */
  lemma ReleasedBy(db: Db, op: Op, i: nat)
    requires Inv(db) && RefundsInv(db) && i < |db.payouts|
    ensures Released(Perform(db, op).db, i) && !Released(db, i) ==> Delivers(db, op, i) || IsCompleted(db, i)
  {
    PayoutLife(db, op, i);
    hide Inv, RefundsInv;
    if op.OpDelivered? { RefusedDelivery(db, op); }
    hide Perform;
  }

  lemma RefusedDelivery(db: Db, op: Op)
    requires op.OpDelivered?
    ensures Perform(db, op).error.Some? ==> Perform(db, op).db == db
  {
  }

  // ---------------------------------------------------------------- over a run

  lemma RunInv(start: Db, ops: seq<Op>)
    requires Start(start)
    ensures Inv(Run(start, ops)) && RefundsInv(Run(start, ops))
    ensures |Run(start, ops).orders| == |Run(start, ops).payouts| == |start.payouts|
  {
    hide *;
    ReachedFromStart(start, ops);
    SamePayouts(start, ops);
    LedgerSizes(Run(start, ops));
  }

  lemma LastOp(start: Db, ops: seq<Op>)
    requires ops != []
    ensures Run(start, ops) == Perform(Run(start, ops[..|ops| - 1]), ops[|ops| - 1]).db
  {
    hide Perform;
  }

  lemma StartIsHeld(start: Db, i: nat)
    requires Start(start)
    ensures !IsCompleted(start, i) && !Released(start, i)
  {
  }

  /** Main result, over every run: behind a completed order and behind a released payout there is a delivery, or a
      dispute that was dismissed before any. */
  lemma {:induction false} ReleasedHasReason(start: Db, ops: seq<Op>, i: nat)
    requires Start(start) && i < |start.payouts|
    ensures IsCompleted(Run(start, ops), i) || Released(Run(start, ops), i) ==>
              WasDelivered(start, ops, i) || DismissedEarly(start, ops, i)
  {
    hide Perform, Inv, RefundsInv, Start, Delivers, Dismisses, IsCompleted, Released;
    if ops == [] {
      StartIsHeld(start, i);
    } else {
      var init, op := ops[..|ops| - 1], ops[|ops| - 1];
      var db := Run(start, init);
      ReleasedHasReason(start, init, i);
      RunInv(start, init);
      CompletesBy(db, op, i);
      ReleasedBy(db, op, i);
      LastOp(start, ops);
    }
  }

  /** Over every run: no order counts as completed before it was delivered if and only if no dispute was dismissed
      before the delivery. */
  lemma {:induction false} CompletedIsDeliveredIff(start: Db, ops: seq<Op>, i: nat)
    requires Start(start) && i < |start.payouts|
    ensures CompletedWasDelivered(start, ops, i) <==> !DismissedEarly(start, ops, i)
  {
    hide Perform, Inv, RefundsInv, Start, Delivers, Dismisses, IsCompleted, Released;
    if ops == [] {
      StartIsHeld(start, i);
    } else {
      var init, op := ops[..|ops| - 1], ops[|ops| - 1];
      var db := Run(start, init);
      CompletedIsDeliveredIff(start, init, i);
      ReleasedHasReason(start, ops, i);
      LastOp(start, ops);
      if Dismisses(db, op, i) {
        DismissalCompletes(db, op, i);
        NotBoth(db, op, i);
      }
    }
  }

  lemma NotBoth(db: Db, op: Op, i: nat)
    requires Dismisses(db, op, i)
    ensures !Delivers(db, op, i)
  {
  }

  // ---------------------------------------------------------------- the way around

  /** Paid, disputed and dismissed, then settled, requested and paid: nothing of it is a delivery. */
  function Undelivered(seller: int, i: nat): seq<Op> {
    [OpCapture(seller, i, "pay"), OpOpenDispute(i), OpResolveDispute(i, Rejected)]
    + [OpSettle(seller, i, "settlement", true, true), OpRequestPayout(seller, i, "payout", true),
       OpPayoutPaid(seller, i, "bank", true, true)]
  }

  lemma {:induction false} NoDelivery(start: Db, ops: seq<Op>, i: nat)
    requires forall op :: op in ops ==> !op.OpDelivered?
    ensures !WasDelivered(start, ops, i)
  {
    hide Perform, Run;
    if ops != [] { NoDelivery(start, ops[..|ops| - 1], i); }
  }

  /** The order is paid and complete, its dispute dismissed; nothing has been settled. */
  function Dismissed(start: Db, i: nat): Db
    requires i < |start.orders| == |start.payouts| == |start.payments| == |start.disputes|
  {
    start.(orders := start.orders[i := start.orders[i].(status := Completed, paymentRef := Some("pay"))],
           payouts := start.payouts[i := start.payouts[i].(paymentRef := Some("pay"))],
           payments := start.payments[i := Some(Payment(start.orders[i].total, false))],
           disputes := start.disputes[i := Some(Rejected)])
  }

  lemma FirstCalls(start: Db, i: nat, seller: int)
    requires Start(start) && i < |start.orders| && seller == start.orders[i].account.seller
    ensures var paid := CapturePayment(start, seller, i, "pay").db;
            var open := OpenDispute(paid, i).db;
            ResolveDispute(open, i, Rejected).db == Dismissed(start, i)
  {
    var paid := CapturePayment(start, seller, i, "pay").db;
    var open := OpenDispute(paid, i).db;
    assert paid.payouts[i].paymentRef == Some("pay") && paid.orders[i].status == SellerLedger.Paid;
    assert open.orders[i] == paid.orders[i].(status := Disputed) && open.disputes[i] == Some(Open);
    var done := ResolveDispute(open, i, Rejected).db;
    assert done.orders == Dismissed(start, i).orders && done.disputes == Dismissed(start, i).disputes;
  }

  /** The payout has its references, no payout has been paid, and no refund has touched this one. */
  ghost predicate Funded(db: Db, i: nat, seller: int, status: PayoutStatus) {
    && Owned(db, seller, i) && db.orders[i].status == Completed
    && var p := db.payouts[i];
       && p.status == status && p.paymentRef.Some? && p.settlementRef.Some? && p.net > 0
       && Balance(db.entries, p.account) >= p.net && Total(db.entries, i, RefundReversal) == 0
       && forall k :: 0 <= k < |db.payouts| ==> db.payouts[k].externalRef.None?
  }

  lemma SettledIsFunded(db: Db, i: nat, seller: int)
    requires Inv(db) && Owned(db, seller, i) && db.orders[i].status == Completed && db.orders[i].paymentRef.Some?
    requires db.payouts[i].status == Held && db.payouts[i].net > 0
    requires Balance(db.entries, db.payouts[i].account) >= 0
    requires forall k :: 0 <= k < |db.payouts| ==> db.payouts[k].externalRef.None?
    ensures Funded(Settle(db, seller, i, "settlement", true, true).db, i, seller, Eligible)
  {
    SettlementCredits(db, seller, i, "settlement");
    HeldPayoutAudit(db, i);
    EntryAdded(db.entries, EntryFor(db, i, Credit, db.payouts[i].net, "settlement:settlement"), i, RefundReversal);
    hide Inv, Balance, Total, BalanceAudit;
  }

  lemma RequestedIsFunded(db: Db, i: nat, seller: int)
    requires Funded(db, i, seller, Eligible)
    ensures Funded(RequestPayout(db, seller, i, "payout", true).db, i, seller, InProcess)
  {
    hide Balance, Total;
  }

  lemma FundedIsPaid(db: Db, i: nat, seller: int)
    requires Inv(db) && Funded(db, i, seller, InProcess)
    ensures var done := MarkPayoutPaid(db, seller, i, "bank", true, true);
            && done.error.None? && i < |done.db.payouts| && done.db.payouts[i].status == PaidOut
  {
    var p := db.payouts[i];
    var e := EntryFor(db, i, PayoutDebit, p.net, if p.payoutRef.Some? then p.payoutRef.value else "bank");
    assert RowInv(db.orders[i], p, db.entries, i);
    Positive(db.payouts, db.entries);
    TotalsFromCounts(db.entries, i, RefundReversal);
    TotalsFromCounts(db.entries, i, RefundRecovery);
    NoEntry(db.entries, i, PayoutDebit, e.source);
    forall kind
      ensures Total(db.entries + [e], i, kind)
              == Total(db.entries, i, kind) + (if kind == PayoutDebit then e.amount else 0)
      ensures Count(db.entries + [e], i, kind)
              == Count(db.entries, i, kind) + (if kind == PayoutDebit then 1 else 0)
    {
      EntryAdded(db.entries, e, i, kind);
    }
    TotalsFromCounts(db.entries, i, PayoutDebit);
    hide Balance, Total, Count, RowsInv, ExternalInv, EntriesInv, ReturnsInv, HasEntry;
  }

  lemma PerformsSettle(db: Db, seller: int, i: nat)
    ensures Perform(db, OpSettle(seller, i, "settlement", true, true))
            == Settle(db, seller, i, "settlement", true, true)
  {
    hide Settle;
  }

  lemma PerformsRequest(db: Db, seller: int, i: nat)
    ensures Perform(db, OpRequestPayout(seller, i, "payout", true)) == RequestPayout(db, seller, i, "payout", true)
  {
    hide RequestPayout;
  }

  /** A complete order's held payout is settled, requested and paid, one call after the other. */
  lemma LastCalls(db: Db, i: nat, seller: int)
    requires Inv(db) && Owned(db, seller, i) && db.orders[i].status == Completed && db.orders[i].paymentRef.Some?
    requires db.payouts[i].status == Held && db.payouts[i].net > 0
    requires Balance(db.entries, db.payouts[i].account) >= 0
    requires forall k :: 0 <= k < |db.payouts| ==> db.payouts[k].externalRef.None?
    ensures var settled := Settle(db, seller, i, "settlement", true, true).db;
            var asked := RequestPayout(settled, seller, i, "payout", true).db;
            var done := MarkPayoutPaid(asked, seller, i, "bank", true, true);
            && done.error.None? && i < |done.db.payouts| && done.db.payouts[i].status == PaidOut
  {
    hide *;
    var settled := Settle(db, seller, i, "settlement", true, true).db;
    SettledIsFunded(db, i, seller);
    StepKeepsInv(db, OpSettle(seller, i, "settlement", true, true));
    PerformsSettle(db, seller, i);
    RequestedIsFunded(settled, i, seller);
    StepKeepsInv(settled, OpRequestPayout(seller, i, "payout", true));
    PerformsRequest(settled, seller, i);
    FundedIsPaid(RequestPayout(settled, seller, i, "payout", true).db, i, seller);
  }

  lemma OneMore(start: Db, ops: seq<Op>, op: Op)
    ensures Run(start, ops + [op]) == Perform(Run(start, ops), op).db
  {
    assert (ops + [op])[..|ops|] == ops;
    hide Perform;
  }

  lemma ThreeMore(start: Db, ops: seq<Op>, a: Op, b: Op, c: Op)
    ensures Run(start, ops + [a, b, c]) == Perform(Perform(Perform(Run(start, ops), a).db, b).db, c).db
  {
    hide Perform, Run;
    OneMore(start, ops, a);
    OneMore(start, ops + [a], b);
    OneMore(start, ops + [a] + [b], c);
    assert ops + [a, b, c] == ops + [a] + [b] + [c];
  }

  lemma FirstThree(start: Db, i: nat, seller: int)
    requires Start(start) && i < |start.orders| == |start.payouts| == |start.payments| == |start.disputes|
    requires seller == start.orders[i].account.seller
    ensures |Undelivered(seller, i)| == 6
    ensures Run(start, Undelivered(seller, i)[..3]) == Dismissed(start, i) && Inv(Dismissed(start, i))
  {
    hide *;
    var a, b, c := OpCapture(seller, i, "pay"), OpOpenDispute(i), OpResolveDispute(i, Rejected);
    FirstOps(seller, i);
    NoOps(start);
    ThreeMore(start, [], a, b, c);
    PerformsFirst(start, seller, i);
    FirstCalls(start, i, seller);
    ReachedFromStart(start, [] + [a, b, c]);
  }

  lemma FirstOps(seller: int, i: nat)
    ensures |Undelivered(seller, i)| == 6
    ensures Undelivered(seller, i)[..3]
            == [] + [OpCapture(seller, i, "pay"), OpOpenDispute(i), OpResolveDispute(i, Rejected)]
  {
  }

  lemma PerformsFirst(db: Db, seller: int, i: nat)
    ensures var paid := Perform(db, OpCapture(seller, i, "pay")).db; var open := Perform(paid, OpOpenDispute(i)).db;
            && paid == CapturePayment(db, seller, i, "pay").db && open == OpenDispute(paid, i).db
            && Perform(open, OpResolveDispute(i, Rejected)).db == ResolveDispute(open, i, Rejected).db
  {
    hide CapturePayment, OpenDispute, ResolveDispute;
  }

  lemma NoOps(start: Db)
    ensures Run(start, []) == start
  {
  }

  lemma LastThree(start: Db, i: nat, seller: int)
    ensures |Undelivered(seller, i)| == 6
    ensures var ops := Undelivered(seller, i); var mid := Run(start, ops[..3]);
            var settled := Settle(mid, seller, i, "settlement", true, true).db;
            var asked := RequestPayout(settled, seller, i, "payout", true).db;
            Run(start, ops) == MarkPayoutPaid(asked, seller, i, "bank", true, true).db
  {
    hide Run, Settle, RequestPayout, MarkPayoutPaid;
    var a, b, c := OpSettle(seller, i, "settlement", true, true), OpRequestPayout(seller, i, "payout", true),
        OpPayoutPaid(seller, i, "bank", true, true);
    assert Undelivered(seller, i) == Undelivered(seller, i)[..3] + [a, b, c];
    ThreeMore(start, Undelivered(seller, i)[..3], a, b, c);
  }

  lemma StartIsOpen(start: Db, i: nat, seller: int)
    requires Start(start) && i < |start.payouts| && start.payouts[i].net > 0 && i < |start.orders|
    requires seller == start.orders[i].account.seller
    ensures i < |start.orders| == |start.payouts| == |start.payments| == |start.disputes|
    ensures var mid := Dismissed(start, i);
            && Owned(mid, seller, i) && mid.orders[i].status == Completed && mid.orders[i].paymentRef.Some?
            && mid.payouts[i].status == Held && mid.payouts[i].net > 0
            && Balance(mid.entries, mid.payouts[i].account) >= 0
            && forall k :: 0 <= k < |mid.payouts| ==> mid.payouts[k].externalRef.None?
  {
  }

  lemma NoneDelivers(seller: int, i: nat)
    ensures forall op :: op in Undelivered(seller, i) ==> !op.OpDelivered?
  {
  }

  lemma PaidIsReleased(db: Db, i: nat)
    requires i < |db.payouts| && db.payouts[i].status == PaidOut
    ensures Released(db, i)
  {
  }

  /** Main result: from what any checkout leaves, an order that was never delivered is completed by a dispute that is
      dismissed, and its payout is paid. */
  lemma UndeliveredIsPaid(start: Db, i: nat, seller: int)
    requires Start(start) && i < |start.payouts| && start.payouts[i].net > 0 && i < |start.orders|
    requires seller == start.orders[i].account.seller
    ensures var ops := Undelivered(seller, i);
            && i < |Run(start, ops).payouts| && Run(start, ops).payouts[i].status == PaidOut
            && !WasDelivered(start, ops, i) && DismissedEarly(start, ops, i)
  {
    hide *;
    StartIsOpen(start, i, seller);
    FirstThree(start, i, seller);
    LastThree(start, i, seller);
    LastCalls(Dismissed(start, i), i, seller);
    NoneDelivers(seller, i);
    NoDelivery(start, Undelivered(seller, i), i);
    PaidIsReleased(Run(start, Undelivered(seller, i)), i);
    ReleasedHasReason(start, Undelivered(seller, i), i);
  }
}
