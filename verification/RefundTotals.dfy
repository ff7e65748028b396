/** How much is refunded to the buyer of an order, against what was captured. */
module RefundTotals {
  import opened Outcomes
  import opened SellerLedger

  /** Every refund of an order, whether completed or still waiting for the provider. */
  function AllTotal(refunds: seq<Refund>, order: nat): int {
    if refunds == [] then 0
    else
      var f := refunds[|refunds| - 1];
      AllTotal(refunds[..|refunds| - 1], order) + if f.order == order then f.amount else 0
  }

  predicate Outstanding(refunds: seq<Refund>, order: nat) {
    exists f :: f in refunds && f.order == order && f.providerId.None?
  }

  /** A refund is requested only while no other refund of its order waits for the provider. */
  predicate OneAtATime(db: Db, op: Op) {
    && (op.OpApproveRefund? && op.r < |db.requests| ==> !Outstanding(db.refunds, db.requests[op.r].order))
    && (op.OpCreateRefund? ==> !Outstanding(db.refunds, op.i))
  }

  predicate OneAtATimeRun(db: Db, ops: seq<Op>) {
    ops == [] || (OneAtATimeRun(db, ops[..|ops| - 1]) && OneAtATime(Run(db, ops[..|ops| - 1]), ops[|ops| - 1]))
  }

  ghost predicate WithinTotal(db: Db, i: nat)
    requires i < |db.orders| && i < |db.payments|
  {
    && AllTotal(db.refunds, i) <= db.orders[i].total
    && (db.payments[i].Some? ==> db.payments[i].value.amount == db.orders[i].total)
  }

  ghost predicate Bounded(db: Db) {
    && |db.orders| == |db.payments|
    && (forall f :: f in db.refunds ==> f.amount > 0)
    && forall i :: 0 <= i < |db.orders| ==> WithinTotal(db, i)
  }

  lemma AllTotalAppend(refunds: seq<Refund>, f: Refund, i: nat)
    ensures AllTotal(refunds + [f], i) == AllTotal(refunds, i) + if f.order == i then f.amount else 0
  {
    assert (refunds + [f])[..|refunds|] == refunds;
  }

  lemma RefundedAppend(refunds: seq<Refund>, f: Refund, i: nat)
    ensures RefundedTotal(refunds + [f], i) == RefundedTotal(refunds, i)
            + if f.order == i && f.providerId.Some? then f.amount else 0
  {
    assert (refunds + [f])[..|refunds|] == refunds;
  }

  /** Completing a refund does not change what was ever requested, and adds its amount to what was
      refunded. */
  lemma {:induction false} AfterCompletion(refunds: seq<Refund>, k: nat, providerId: string, i: nat)
    requires k < |refunds| && refunds[k].providerId.None?
    ensures var done := refunds[k := refunds[k].(providerId := Some(providerId))];
            && AllTotal(done, i) == AllTotal(refunds, i)
            && RefundedTotal(done, i) == RefundedTotal(refunds, i)
               + if refunds[k].order == i then refunds[k].amount else 0
  {
    var n := |refunds| - 1;
    var f := refunds[k].(providerId := Some(providerId));
    if k == n {
      assert refunds[k := f][..n] == refunds[..n];
    } else {
      assert refunds[k := f][..n] == refunds[..n][k := f];
      AfterCompletion(refunds[..n], k, providerId, i);
    }
  }

  lemma {:induction false} RefundedWithinAll(refunds: seq<Refund>, i: nat)
    requires forall f :: f in refunds ==> f.amount > 0
    ensures RefundedTotal(refunds, i) <= AllTotal(refunds, i)
    ensures !Outstanding(refunds, i) ==> RefundedTotal(refunds, i) == AllTotal(refunds, i)
  {
    if refunds != [] {
      var n := |refunds| - 1;
      assert refunds[n] in refunds && forall f :: f in refunds[..n] ==> f in refunds;
      RefundedWithinAll(refunds[..n], i);
    }
  }

  lemma CreateStaysWithin(db: Db, i: nat, reference: string, amount: int, allowed: bool)
    requires Bounded(db) && !Outstanding(db.refunds, i)
    ensures Bounded(CreateRefund(db, i, reference, amount, allowed).db)
  {
    hide FindRefund, RefundedTotal, AllTotal;
    var after := CreateRefund(db, i, reference, amount, allowed);
    if after.error.None? {
      var f := Refund(reference, i, amount, None);
      RefundedWithinAll(db.refunds, i);
      forall j | 0 <= j < |db.orders| ensures WithinTotal(after.db, j) {
        assert WithinTotal(db, j);
        AllTotalAppend(db.refunds, f, j);
      }
    }
  }

  lemma ApproveStaysWithin(db: Db, seller: int, r: nat, reference: string, amount: int, allowed: bool)
    requires Bounded(db) && (r < |db.requests| ==> !Outstanding(db.refunds, db.requests[r].order))
    ensures Bounded(ApproveRefund(db, seller, r, reference, amount, allowed).db)
  {
    hide FindRefund, RefundedTotal, AllTotal, CreateRefund, Outstanding;
    if r < |db.requests| {
      CreateStaysWithin(db, db.requests[r].order, reference, amount, allowed);
      var mid, after := CreateRefund(db, db.requests[r].order, reference, amount, allowed).db,
          ApproveRefund(db, seller, r, reference, amount, allowed).db;
      forall j | 0 <= j < |db.orders| ensures WithinTotal(after, j) {
        assert WithinTotal(mid, j) && WithinTotal(db, j);
      }
    }
  }

  lemma CompletionStaysWithin(db: Db, k: nat, providerId: string, allowed: bool)
    requires Bounded(db) && k < |db.refunds|
    ensures Bounded(CompletePaymentRefund(db, k, providerId, allowed).db)
    ensures CompletePaymentRefund(db, k, providerId, allowed).db.orders == db.orders
    ensures CompletePaymentRefund(db, k, providerId, allowed).db.requests == db.requests
    ensures |CompletePaymentRefund(db, k, providerId, allowed).db.payments| == |db.payments|
  {
    hide RefundedTotal, AllTotal;
    var after := CompletePaymentRefund(db, k, providerId, allowed).db;
    if after != db {
      forall i | 0 <= i < |db.orders| ensures WithinTotal(after, i) {
        assert WithinTotal(db, i);
        AfterCompletion(db.refunds, k, providerId, i);
      }
      assert db.refunds[k] in db.refunds;
    }
  }

  /** Steps that leave refunds alone and keep captured amounts equal to order totals. */
  lemma SameRefunds(db: Db, db': Db)
    requires Bounded(db) && db'.refunds == db.refunds && |db'.orders| == |db.orders| && |db'.payments| == |db.payments|
    requires forall i :: 0 <= i < |db.orders| ==>
               db'.orders[i].total == db.orders[i].total
               && (db'.payments[i] == db.payments[i] || db'.payments[i] == Some(Payment(db.orders[i].total, false)))
    ensures Bounded(db')
  {
    hide AllTotal;
    forall i | 0 <= i < |db.orders| ensures WithinTotal(db', i) {
      assert WithinTotal(db, i);
    }
  }

  lemma ReturnRefundStaysWithin(db: Db, seller: int, r: nat, providerId: string, allowed: bool)
    requires Bounded(db)
    ensures Bounded(CompleteReturnRefund(db, seller, r, providerId, allowed).db)
  {
    hide FindRefund, RefundedTotal, AddEntry, Total, RefundAudit, PayoutConstraint, CompletePaymentRefund, WithinTotal;
    var after := CompleteReturnRefund(db, seller, r, providerId, allowed);
    if after.db != db {
      var k := FindRefund(db.refunds, db.requests[r].refundRef.value);
      var mid := CompletePaymentRefund(db, k, providerId, allowed).db;
      CompletionStaysWithin(db, k, providerId, allowed);
      if after.error.None? { SameRefunds(mid, after.db); }
    }
  }

  lemma OrderStepStaysWithin(db: Db, op: Op)
    requires Bounded(db)
    requires op.OpCapture? || op.OpMarkPaid? || op.OpProcessing? || op.OpShipped? || op.OpDelivered? || op.OpCancel?
    ensures Bounded(Perform(db, op).db)
  {
    hide BalanceAudit, WithinTotal, Settle, RequestPayout, MarkPayoutPaid, OpenDispute, ResolveDispute,
         CompleteReturnRefund;
    hide RequestReturn, AdvanceReturn, ApproveRefund, CreateRefund, CompletePaymentRefund;
    SameRefunds(db, Perform(db, op).db);
  }

  lemma PayoutStepStaysWithin(db: Db, op: Op)
    requires Bounded(db)
    requires op.OpSettle? || op.OpRequestPayout? || op.OpPayoutPaid? || op.OpOpenDispute? || op.OpResolveDispute?
             || op.OpRequestReturn? || op.OpAdvanceReturn?
    ensures Bounded(Perform(db, op).db)
  {
    hide BalanceAudit, WithinTotal, AddEntry, Balance, ApproveRefund, CompleteReturnRefund, CreateRefund,
         CompletePaymentRefund;
    hide CapturePayment, MarkPaid, MarkProcessing, MarkShipped, MarkDelivered, Cancel;
    SameRefunds(db, Perform(db, op).db);
  }

  lemma RefundStepStaysWithin(db: Db, op: Op)
    requires Bounded(db) && OneAtATime(db, op) && IsRefundOp(op)
    ensures Bounded(Perform(db, op).db)
  {
    hide Bounded, ApproveRefund, CompleteReturnRefund, CreateRefund, CompletePaymentRefund, Outstanding;
    match op
    case OpApproveRefund(seller, r, reference, amount, allowed) =>
      ApproveStaysWithin(db, seller, r, reference, amount, allowed);
    case OpCompleteRefund(seller, r, providerId, allowed) =>
      ReturnRefundStaysWithin(db, seller, r, providerId, allowed);
    case OpCreateRefund(i, reference, amount, allowed) => CreateStaysWithin(db, i, reference, amount, allowed);
    case OpPaymentRefund(k, providerId, allowed) =>
      if k < |db.refunds| { CompletionStaysWithin(db, k, providerId, allowed); }
  }

  predicate IsRefundOp(op: Op) {
    op.OpApproveRefund? || op.OpCompleteRefund? || op.OpCreateRefund? || op.OpPaymentRefund?
  }

  lemma {:induction false} RunStaysWithin(db: Db, ops: seq<Op>)
    requires Bounded(db) && OneAtATimeRun(db, ops)
    ensures Bounded(Run(db, ops))
  {
    hide Bounded, Perform, OneAtATime;
    if ops != [] {
      var mid, op := Run(db, ops[..|ops| - 1]), ops[|ops| - 1];
      RunStaysWithin(db, ops[..|ops| - 1]);
      if IsRefundOp(op) {
        RefundStepStaysWithin(mid, op);
      } else if op.OpCapture? || op.OpMarkPaid? || op.OpProcessing? || op.OpShipped? || op.OpDelivered?
          || op.OpCancel? {
        OrderStepStaysWithin(mid, op);
      } else {
        PayoutStepStaysWithin(mid, op);
      }
    }
  }

  /** Main result: as long as refunds of an order are approved one at a time, no run refunds more
      than was captured. */
  lemma RefundsWithinCapture(start: Db, ops: seq<Op>, i: nat)
    requires Start(start) && OneAtATimeRun(start, ops) && i < |start.orders|
    requires forall k :: 0 <= k < |start.orders| ==> start.orders[k].total >= 0
    ensures var db := Run(start, ops);
            i < |db.payments| && db.payments[i].Some? ==> RefundedTotal(db.refunds, i) <= db.payments[i].value.amount
  {
    hide Run, RefundedTotal, OneAtATimeRun;
    assert Bounded(start);
    RunStaysWithin(start, ops);
    var db := Run(start, ops);
    if i < |db.payments| {
      RefundedWithinAll(db.refunds, i);
      assert WithinTotal(db, i);
    }
  }

  /** The completion does not look at the captured amount: it overpays if and only if its refund does
      not fit into what is left. */
  lemma CompletionOverpaysIff(db: Db, k: nat, providerId: string)
    requires k < |db.refunds| && db.refunds[k].providerId.None? && db.refunds[k].order < |db.payments|
    requires CompletePaymentRefund(db, k, providerId, true).error.None?
    ensures var i := db.refunds[k].order;
            var after := CompletePaymentRefund(db, k, providerId, true).db;
            db.payments[i].Some? && after.payments[i].Some?
            && (RefundedTotal(after.refunds, i) > after.payments[i].value.amount
                <==> RefundedTotal(db.refunds, i) + db.refunds[k].amount > db.payments[i].value.amount)
  {
    hide RefundedTotal;
    AfterCompletion(db.refunds, k, providerId, db.refunds[k].order);
  }

  /** Two full refunds of one order, approved side by side, are both paid out. */
  lemma TwoOpenRefundsOverpay(db: Db, seller: int, r: nat, s: nat, refA: string, refB: string, idA: string, idB: string)
    requires |db.refunds| == 0 && r < |db.requests| && s < |db.requests| && r != s && refA != refB && idA != ""
    requires idB != "" && idA != idB
    requires db.requests[r].status == db.requests[s].status == Inspected && db.requests[r].order == db.requests[s].order
    requires Owned(db, seller, db.requests[r].order) && db.orders[db.requests[r].order].paymentRef.Some?
    requires db.payments[db.requests[r].order].Some? && !db.payments[db.requests[r].order].value.refunded
    requires db.payments[db.requests[r].order].value.amount > 0
    ensures var i := db.requests[r].order;
            var amount := db.payments[i].value.amount;
            var both := ApproveRefund(ApproveRefund(db, seller, r, refA, amount, true).db, seller, s, refB, amount,
                                      true);
            && both.error.None? && |both.db.refunds| == 2
            && var first := CompletePaymentRefund(both.db, 0, idA, true);
            && first.error.None? && |first.db.refunds| == 2
            && var second := CompletePaymentRefund(first.db, 1, idB, true);
            second.error.None? && RefundedTotal(second.db.refunds, i) == 2 * amount
  {
    var i, amount := db.requests[r].order, db.payments[db.requests[r].order].value.amount;
    var a, b := Refund(refA, i, amount, None), Refund(refB, i, amount, None);
    var one := ApproveRefund(db, seller, r, refA, amount, true);
    assert one.db.refunds == [a] && FindRefund([a], refB) == 1;
    RefundedAppend([], a, i);
    var both := ApproveRefund(one.db, seller, s, refB, amount, true);
    assert both.db.refunds == [a, b];
    RefundedAppend([a], b, i);
    assert [a] + [b] == [a, b];
    hide RefundedTotal, FindRefund, ApproveRefund;
    AfterCompletion([a, b], 0, idA, i);
    AfterCompletion([a, b][0 := a.(providerId := Some(idA))], 1, idB, i);
  }
}
