/** The life of an order and of its payout: every move and its licence, what a payout waits for before it is released,
    and the one way around it. */
module OrderLife {
  import opened Outcomes
  import opened RefundBooking
  import opened RefundRetry
  import opened SellerBalance
  import opened SellerInvariant
  import opened SellerLedger

  // ---------------------------------------------------------------- the moves of an order

  predicate UnderWay(s: OrderStatus) {
    s == SellerLedger.Paid || s == Processing || s == Shipped || s == Delivered || s == Completed
  }

  /** The call may take an order from x, with this dispute, to y. */
  predicate Moves(op: Op, x: OrderStatus, dispute: Option<DisputeStatus>, y: OrderStatus) {
    match op
    case OpCapture(_, _, _) => y == SellerLedger.Paid
    case OpMarkPaid(_, _, _, captured) => captured && x == PendingPayment && y == SellerLedger.Paid
    case OpProcessing(_, _) => x == SellerLedger.Paid && y == Processing
    case OpShipped(_, _, inTransit, delivered) =>
      && (x == SellerLedger.Paid || x == Processing)
      && ((delivered && y == Delivered) || (inTransit && !delivered && y == Shipped))
    case OpDelivered(_, _, delivered) => delivered && (x == Shipped || x == Delivered) && y == Completed
    case OpCancel(_) => x == PendingPayment && y == Cancelled
    case OpOpenDispute(_) => UnderWay(x) && dispute == None && y == Disputed
    case OpResolveDispute(_, decision) =>
      && dispute == Some(Open) && decision != Open
      && y == if x == Disputed && decision != Resolved then Completed else x
    case _ => false
  }

  /** A call of the order's life on order i, by its seller where the seller makes it. */
  predicate OrderCall(db: Db, op: Op, i: nat) {
    && i < |db.orders| == |db.payouts| == |db.payments| == |db.disputes|
    && match op
       case OpCapture(seller, j, _) => j == i && seller == db.orders[i].account.seller && db.payments[i].None?
       case OpProcessing(seller, j) => j == i && seller == db.orders[i].account.seller
       case OpShipped(seller, j, _, _) => j == i && seller == db.orders[i].account.seller
       case OpDelivered(seller, j, _) => j == i && seller == db.orders[i].account.seller
       case OpCancel(j) => j == i
       case OpOpenDispute(j) => j == i
       case OpResolveDispute(j, _) => j == i
       case _ => false
  }

  /** Main result: which calls on an order are accepted, and the status that they leave. */
  lemma OrderCallIff(db: Db, op: Op, i: nat)
    requires OrderCall(db, op, i)
    ensures var o, after := db.orders[i], Perform(db, op);
            && (after.error.None? <==> exists y :: Moves(op, o.status, db.disputes[i], y))
            && (after.error.Some? ==> after.db == db)
            && |after.db.orders| == |db.orders|
            && (after.error.None? ==> Moves(op, o.status, db.disputes[i], after.db.orders[i].status))
            && after.db.orders
               == db.orders[i := o.(status := after.db.orders[i].status,
                                    paymentRef := if op.OpCapture? && after.error.None? then Some(op.reference)
                                                  else o.paymentRef)]
            && after.db.disputes
               == (if after.error.Some? then db.disputes
                   else if op.OpOpenDispute? then db.disputes[i := Some(Open)]
                   else if op.OpResolveDispute? then db.disputes[i := Some(op.decision)]
                   else db.disputes)
  {
    var o, after := db.orders[i], Perform(db, op);
    if after.error.None? {
      assert Moves(op, o.status, db.disputes[i], after.db.orders[i].status);
    }
  }

  predicate ChangesOrders(op: Op) {
    op.OpCapture? || op.OpMarkPaid? || op.OpProcessing? || op.OpShipped? || op.OpDelivered? || op.OpCancel?
    || op.OpOpenDispute? || op.OpResolveDispute? || op.OpCompleteRefund?
  }

  lemma OtherOps(db: Db, op: Op)
    requires !ChangesOrders(op)
    ensures Perform(db, op).db.orders == db.orders && Perform(db, op).db.disputes == db.disputes
  {
    hide BalanceAudit, RefundedTotal, FindRefund, AddEntry, Balance;
    hide CapturePayment, MarkPaid, MarkProcessing, MarkShipped, MarkDelivered, Cancel, OpenDispute, ResolveDispute,
         CompleteReturnRefund;
  }

  /** A refund that was booked leaves its order refunded once the payment is, and partially refunded before. */
  predicate RefundMove(db: Db, op: Op, i: nat, y: OrderStatus) {
    && op.OpCompleteRefund? && op.r < |db.requests| && db.requests[op.r].order == i
    && Perform(db, op).error.None?
    && i < |Perform(db, op).db.payments|
    && var payment := Perform(db, op).db.payments[i];
       y == if payment.Some? && payment.value.refunded then Refunded else PartiallyRefunded
  }

  lemma RefundOnOrders(db: Db, op: Op, i: nat)
    requires Inv(db) && RefundsInv(db) && op.OpCompleteRefund? && i < |db.orders|
    ensures var after := Perform(db, op).db;
            && |after.orders| == |db.orders| && after.disputes == db.disputes
            && after.orders[i] == db.orders[i].(status := after.orders[i].status)
            && (after.orders[i].status == db.orders[i].status || RefundMove(db, op, i, after.orders[i].status))
  {
    CompletionIsPerformed(db, op);
    var done := CompleteReturnRefund(db, op.seller, op.r, op.providerId, op.allowed);
    if done.error.None? && db.requests[op.r].status == RefundApproved {
      var k, j := FindRefund(db.refunds, db.requests[op.r].refundRef.value), db.requests[op.r].order;
      assert Books(db, op, j, k);
      BookingIsApplied(db, op, j, k);
      var mid := CompletePaymentRefund(db, k, op.providerId, op.allowed).db;
      AppliedOrder(mid, j, db.refunds[k].amount, db.refunds[k].reference);
      hide Inv, RefundsInv, FindRefund, CompletePaymentRefund, CompleteReturnRefund, Perform, ApplyRefund, Books;
    } else {
      hide Inv, RefundsInv, FindRefund, CompletePaymentRefund, Book, Perform;
      RefusedCompletion(db, op.seller, op.r, op.providerId, op.allowed);
    }
  }

  lemma RefusedCompletion(db: Db, seller: int, r: nat, providerId: string, allowed: bool)
    requires var done := CompleteReturnRefund(db, seller, r, providerId, allowed);
             done.error.None? ==> db.requests[r].status != RefundApproved
    ensures var done := CompleteReturnRefund(db, seller, r, providerId, allowed);
            done.db.orders == db.orders && done.db.disputes == db.disputes
  {
    hide FindRefund, RefundedTotal, ApplyRefund, RefundAudit, PayoutConstraint;
  }

  /** Main result: whatever the operation, an order keeps its account and total, and its status moves only by one of
      the calls on it or by a refund that was booked. */
  lemma OrderMoves(db: Db, op: Op, i: nat)
    requires Inv(db) && RefundsInv(db) && i < |db.orders|
    ensures var o, after := db.orders[i], Perform(db, op).db;
            && |after.orders| == |db.orders| == |after.disputes|
            && (after.orders[i].account, after.orders[i].total) == (o.account, o.total)
            && (after.orders[i].status == o.status || RefundMove(db, op, i, after.orders[i].status)
                || Moves(op, o.status, db.disputes[i], after.orders[i].status))
  {
    hide LedgerInv, ReturnsInv, RefundsInv, Moves;
    LedgerSizes(db);
    if op.OpCompleteRefund? {
      RefundOnOrders(db, op, i);
      hide Perform, RefundMove;
    } else if !ChangesOrders(op) {
      hide Perform;
      OtherOps(db, op);
    } else {
      CallOnOrders(db, op, i);
    }
  }

  lemma LedgerSizes(db: Db)
    requires Inv(db)
    ensures |db.orders| == |db.payouts| == |db.payments| == |db.disputes|
  {
    hide RowInv, ExternalInv, EntriesInv, ReturnsInv;
  }

  lemma CallOnOrders(db: Db, op: Op, i: nat)
    requires |db.orders| == |db.payouts| == |db.payments| == |db.disputes| && i < |db.orders|
    requires ChangesOrders(op) && !op.OpCompleteRefund?
    ensures var o, after := db.orders[i], Perform(db, op).db;
            && |after.orders| == |db.orders| == |after.disputes|
            && (after.orders[i].account, after.orders[i].total) == (o.account, o.total)
            && (after.orders[i].status == o.status || Moves(op, o.status, db.disputes[i], after.orders[i].status))
  {
    hide BalanceAudit, Settle, RequestPayout, MarkPayoutPaid, CompleteReturnRefund, RequestReturn, AdvanceReturn,
         ApproveRefund, CreateRefund, CompletePaymentRefund;
  }

  // ---------------------------------------------------------------- the moves of a payout

  predicate BlocksPayout(s: OrderStatus) { s == Disputed || s == PartiallyRefunded || s == Refunded }

  /** The payout may become eligible: its order is complete, and its payment has been settled. */
  predicate MayRelease(db: Db, op: Op, i: nat)
    requires i < |db.orders| && i < |db.payouts|
  {
    match op
    case OpDelivered(seller, j, delivered) =>
      && j == i && seller == db.orders[i].account.seller && delivered && db.payouts[i].settlementRef.Some?
      && (db.orders[i].status == Shipped || db.orders[i].status == Delivered)
    case OpSettle(seller, j, _, verified, audited) =>
      j == i && seller == db.orders[i].account.seller && verified && audited && db.orders[i].status == Completed
    case _ => false
  }

  /** The payout may be requested or paid: by its seller, let through, and not while its order is blocked. */
  predicate MayPay(db: Db, op: Op, i: nat)
    requires i < |db.orders| && i < |db.payouts|
  {
    !BlocksPayout(db.orders[i].status) &&
    match op
    case OpRequestPayout(seller, j, _, allowed) => j == i && seller == db.orders[i].account.seller && allowed
    case OpPayoutPaid(seller, j, reference, allowed, audited) =>
      && j == i && seller == db.orders[i].account.seller && allowed && audited && reference != ""
      && db.payouts[i].paymentRef.Some? && db.payouts[i].settlementRef.Some?
    case _ => false
  }

  /** The payout may be reversed: its order is cancelled unpaid, or a refund takes all of it. */
  predicate MayReverse(db: Db, op: Op, i: nat)
    requires i < |db.orders| && i < |db.payouts|
  {
    match op
    case OpCancel(j) => j == i && db.orders[i].status == PendingPayment
    case OpCompleteRefund(_, _, _, _) =>
      Booking(db, op, i).Some? && Booking(db, op, i).value < |db.refunds|
      && db.refunds[Booking(db, op, i).value].amount >= db.payouts[i].gross
    case _ => false
  }

  /** Each move of a payout with its licence and with the reference that it leaves. */
  predicate PayoutMoves(db: Db, op: Op, i: nat, y: Payout)
    requires i < |db.orders| && i < |db.payouts|
  {
    match (db.payouts[i].status, y.status)
    case (Held, Eligible) => MayRelease(db, op, i) && y.settlementRef.Some?
    case (Eligible, InProcess) => op.OpRequestPayout? && MayPay(db, op, i) && y.payoutRef == Some(op.payoutRef)
    case (InProcess, PaidOut) => op.OpPayoutPaid? && MayPay(db, op, i) && y.externalRef == Some(op.externalRef)
    case (Held, Reversed) => MayReverse(db, op, i)
    case (Eligible, Reversed) => op.OpCompleteRefund? && MayReverse(db, op, i)
    case (a, b) => a == b
  }

  /** Main result: a payout goes from held to eligible, in process and paid, or is reversed before it is in process;
      each move has its licence, and no other call changes its status. */
  lemma PayoutLife(db: Db, op: Op, i: nat)
    requires Inv(db) && RefundsInv(db) && i < |db.payouts|
    ensures i < |db.orders| && i < |Perform(db, op).db.payouts|
    ensures PayoutMoves(db, op, i, Perform(db, op).db.payouts[i])
  {
    LedgerSizes(db);
    if op.OpCompleteRefund? {
      RefundPayoutMoves(db, op, i);
    } else if op.OpPayoutPaid? {
      hide Inv, RefundsInv, Booking;
      PaidPayoutMoves(db, op, i);
    } else if op.OpCancel? {
      CancelPayoutMoves(db, op, i);
    } else {
      hide Inv, RefundsInv, Booking;
      OtherPayoutMoves(db, op, i);
    }
  }

  lemma RefundPayoutMoves(db: Db, op: Op, i: nat)
    requires Inv(db) && RefundsInv(db) && i < |db.payouts| == |db.orders| && op.OpCompleteRefund?
    ensures i < |Perform(db, op).db.payouts| && PayoutMoves(db, op, i, Perform(db, op).db.payouts[i])
  {
    hide *;
    var j := if op.r < |db.requests| then db.requests[op.r].order else 0;
    if Booking(db, op, j).Some? {
      var k := Booking(db, op, j).value;
      BookedRefund(db, op, j);
      BookingTakes(db, op, j, k, db.payouts[i].account);
      LeftOverMoves(db, op, j, db.refunds[k].amount);
    } else {
      CompletionIsPerformed(db, op);
      BookingOrNot(db, op, j);
      NothingBooked(db, op.seller, op.r, op.providerId, op.allowed);
    }
    SameStatusMoves(db, op, i, db.payouts[i]);
  }

  lemma SameStatusMoves(db: Db, op: Op, i: nat, y: Payout)
    requires i < |db.payouts| == |db.orders| && y.status == db.payouts[i].status
    ensures PayoutMoves(db, op, i, y)
  {
    hide Booking;
  }

  lemma LeftOverMoves(db: Db, op: Op, j: nat, amount: int)
    requires j < |db.payouts| == |db.orders| && op.OpCompleteRefund? && Booking(db, op, j).Some?
    requires Booking(db, op, j).value < |db.refunds| && amount == db.refunds[Booking(db, op, j).value].amount
    ensures PayoutMoves(db, op, j, LeftOver(db.payouts[j], amount))
  {
    hide Booking;
  }

  lemma BookedRefund(db: Db, op: Op, j: nat)
    requires op.OpCompleteRefund? && Booking(db, op, j).Some?
    ensures Books(db, op, j, Booking(db, op, j).value) && Booking(db, op, j).value < |db.refunds|
  {
    hide Perform;
  }

  lemma BookingOrNot(db: Db, op: Op, j: nat)
    requires op.OpCompleteRefund? && Booking(db, op, j).None?
    requires j == if op.r < |db.requests| then db.requests[op.r].order else 0
    ensures var after := CompleteReturnRefund(db, op.seller, op.r, op.providerId, op.allowed);
            after.error.Some? || db.requests[op.r].status != RefundApproved
  {
    CompletionIsPerformed(db, op);
    hide Perform, FindRefund, CompletePaymentRefund, Book;
  }

  lemma PaidPayoutMoves(db: Db, op: Op, i: nat)
    requires i < |db.payouts| == |db.orders| && op.OpPayoutPaid?
    ensures i < |Perform(db, op).db.payouts| && PayoutMoves(db, op, i, Perform(db, op).db.payouts[i])
  {
    hide BalanceAudit, AddEntry, Balance, Booking;
  }

  lemma CancelPayoutMoves(db: Db, op: Op, i: nat)
    requires Inv(db) && i < |db.payouts| == |db.orders| && op.OpCancel?
    ensures i < |Perform(db, op).db.payouts| && PayoutMoves(db, op, i, Perform(db, op).db.payouts[i])
  {
    hide ExternalInv, EntriesInv, ReturnsInv, PayoutInv, Booking;
    assert RowInv(db.orders[i], db.payouts[i], db.entries, i);
  }

  lemma OtherPayoutMoves(db: Db, op: Op, i: nat)
    requires i < |db.payouts| == |db.orders| && !op.OpPayoutPaid? && !op.OpCancel? && !op.OpCompleteRefund?
    ensures i < |Perform(db, op).db.payouts| && PayoutMoves(db, op, i, Perform(db, op).db.payouts[i])
  {
    hide BalanceAudit, AddEntry, Balance, Booking, RefundedTotal, FindRefund, MarkPayoutPaid, Cancel,
         CompleteReturnRefund;
  }
}
