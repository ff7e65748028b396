/** When the seller side of a completed refund can be booked, and when no retry ever books it. */
module RefundRetry {
  import opened Outcomes
  import opened SellerInvariant
  import opened SellerLedger

  // ---------------------------------------------------------------- refunds and their orders

  /** The refund that a return names is of the return's own order. */
  ghost predicate NamesOwnRefund(db: Db, x: Return) {
    x.refundRef.Some? ==>
      var k := FindRefund(db.refunds, x.refundRef.value);
      k < |db.refunds| && db.refunds[k].order == x.order
  }

  ghost predicate RefundsInv(db: Db) {
    && |db.orders| == |db.payments|
    && (forall f :: f in db.refunds ==> f.order < |db.orders| && 0 < f.amount <= db.orders[f.order].total)
    && (forall i :: 0 <= i < |db.orders| && db.payments[i].Some? ==> db.payments[i].value.amount == db.orders[i].total)
    && (forall x :: x in db.requests ==> NamesOwnRefund(db, x))
  }

  /** Refunds are only added, and keep their reference, order and amount. */
  predicate RefundsGrow(refunds: seq<Refund>, more: seq<Refund>) {
    |refunds| <= |more| && forall k :: 0 <= k < |refunds| ==>
        more[k].(providerId := None) == refunds[k].(providerId := None)
  }

  lemma FoundAgain(refunds: seq<Refund>, more: seq<Refund>, reference: string)
    requires RefundsGrow(refunds, more) && FindRefund(refunds, reference) < |refunds|
    ensures FindRefund(more, reference) == FindRefund(refunds, reference)
  {
    assert forall j :: 0 <= j < |refunds| ==>
             more[j].(providerId := None).reference == refunds[j].(providerId := None).reference;
    assert forall j :: 0 <= j < |refunds| ==> more[j].reference == refunds[j].reference;
  }

  /** What every operation but the approval leaves of the refunds. */
  predicate SameBasis(db: Db, after: Db) {
    && RefundsGrow(db.refunds, after.refunds) && |after.refunds| == |db.refunds|
    && |after.orders| == |db.orders| && |after.payments| == |db.payments|
    && (forall i :: 0 <= i < |db.orders| ==> after.orders[i].total == db.orders[i].total)
    && (forall i :: 0 <= i < |db.orders| && i < |db.payments| && after.payments[i].Some? ==>
          after.payments[i].value.amount
              == if db.payments[i].Some? then db.payments[i].value.amount else db.orders[i].total)
    && (forall r :: 0 <= r < |after.requests| ==>
          after.requests[r].refundRef.None?
          || (r < |db.requests| && after.requests[r] == db.requests[r].(status := after.requests[r].status)))
  }

  lemma BasisKeepsInv(db: Db, after: Db)
    requires RefundsInv(db) && SameBasis(db, after)
    ensures RefundsInv(after)
  {
    forall f | f in after.refunds ensures f.order < |after.orders| && 0 < f.amount <= after.orders[f.order].total {
      var k :| 0 <= k < |after.refunds| && after.refunds[k] == f;
      assert db.refunds[k] in db.refunds && db.refunds[k].(providerId := None) == f.(providerId := None);
    }
    forall x | x in after.requests ensures NamesOwnRefund(after, x) {
      var r :| 0 <= r < |after.requests| && after.requests[r] == x;
      if x.refundRef.Some? {
        assert db.requests[r] in db.requests && NamesOwnRefund(db, db.requests[r]);
        FoundAgain(db.refunds, after.refunds, x.refundRef.value);
        var k := FindRefund(db.refunds, x.refundRef.value);
        assert after.refunds[k].(providerId := None) == db.refunds[k].(providerId := None);
      }
    }
  }

  lemma OrderStepBasis(db: Db, op: Op)
    requires RefundsInv(db)
    requires op.OpCapture? || op.OpMarkPaid? || op.OpProcessing? || op.OpShipped? || op.OpDelivered? || op.OpCancel?
    ensures SameBasis(db, Perform(db, op).db)
  {
    hide NamesOwnRefund, BalanceAudit, Settle, RequestPayout, MarkPayoutPaid, OpenDispute, ResolveDispute,
         CompleteReturnRefund;
    hide RequestReturn, AdvanceReturn, ApproveRefund, CreateRefund, CompletePaymentRefund;
  }

  lemma PayoutStepBasis(db: Db, op: Op)
    requires RefundsInv(db)
    requires op.OpSettle? || op.OpRequestPayout? || op.OpPayoutPaid? || op.OpOpenDispute? || op.OpResolveDispute?
             || op.OpRequestReturn? || op.OpAdvanceReturn?
    ensures SameBasis(db, Perform(db, op).db)
  {
    hide NamesOwnRefund, BalanceAudit, AddEntry, Balance, ApproveRefund, CompleteReturnRefund, CreateRefund,
         CompletePaymentRefund;
    hide CapturePayment, MarkPaid, MarkProcessing, MarkShipped, MarkDelivered, Cancel;
  }

  lemma PaymentRefundBasis(db: Db, k: nat, providerId: string, allowed: bool)
    requires RefundsInv(db) && k < |db.refunds|
    ensures var after := CompletePaymentRefund(db, k, providerId, allowed).db;
            && SameBasis(db, after) && after.requests == db.requests && after.orders == db.orders
            && after.payouts == db.payouts
            && after.entries == db.entries
  {
    hide NamesOwnRefund, RefundedTotal;
  }

  lemma ApplyBasis(db: Db, i: nat, amount: int, reference: string)
    requires i < |db.payouts| && i < |db.orders| && i < |db.payments|
    ensures var after := ApplyRefund(db, i, amount, reference);
            && after.refunds == db.refunds && after.payments == db.payments && after.requests == db.requests
            && |after.orders| == |db.orders| && |after.payouts| == |db.payouts|
            && (forall j :: 0 <= j < |db.orders| ==> after.orders[j].total == db.orders[j].total)
            && (forall j :: 0 <= j < |db.payouts| && j != i ==> after.payouts[j] == db.payouts[j])
  {
    hide AddEntry, Total;
  }

  lemma ReturnRefundBasis(db: Db, seller: int, r: nat, providerId: string, allowed: bool)
    requires RefundsInv(db)
    ensures SameBasis(db, CompleteReturnRefund(db, seller, r, providerId, allowed).db)
  {
    hide NamesOwnRefund, FindRefund, RefundAudit, PayoutConstraint, CompletePaymentRefund, ApplyRefund;
    var after := CompleteReturnRefund(db, seller, r, providerId, allowed);
    if after.db != db {
      var k := FindRefund(db.refunds, db.requests[r].refundRef.value);
      PaymentRefundBasis(db, k, providerId, allowed);
      ApplyBasis(CompletePaymentRefund(db, k, providerId, allowed).db, db.requests[r].order, db.refunds[k].amount,
                 db.requests[r].refundRef.value);
    }
  }

  lemma CreateKeepsRefunds(db: Db, i: nat, reference: string, amount: int, allowed: bool)
    requires RefundsInv(db)
    ensures RefundsInv(CreateRefund(db, i, reference, amount, allowed).db)
    ensures RefundsGrow(db.refunds, CreateRefund(db, i, reference, amount, allowed).db.refunds)
  {
    hide RefundedTotal;
    var after := CreateRefund(db, i, reference, amount, allowed).db;
    assert RefundsGrow(db.refunds, after.refunds);
    forall x | x in after.requests ensures NamesOwnRefund(after, x) {
      assert NamesOwnRefund(db, x);
      if x.refundRef.Some? { FoundAgain(db.refunds, after.refunds, x.refundRef.value); }
    }
  }

  /** A return that is given a refund of its own order. */
  lemma GrantKeepsRefunds(db: Db, r: nat, reference: string)
    requires RefundsInv(db) && r < |db.requests|
    requires var k := FindRefund(db.refunds, reference); k < |db.refunds| && db.refunds[k].order == db.requests[r].order
    ensures RefundsInv(Grant(db, r, reference))
  {
    var after := Grant(db, r, reference);
    forall x | x in after.requests ensures NamesOwnRefund(after, x) {
      if x in db.requests { assert NamesOwnRefund(db, x); }
    }
  }

  lemma FoundLast(refunds: seq<Refund>, f: Refund)
    requires FindRefund(refunds, f.reference) == |refunds|
    ensures FindRefund(refunds + [f], f.reference) == |refunds|
  {
    var more := refunds + [f];
    assert more[|refunds|] == f && forall j :: 0 <= j < |refunds| ==> more[j] == refunds[j];
  }

  lemma ApproveKeepsRefunds(db: Db, seller: int, r: nat, reference: string, amount: int, allowed: bool)
    requires RefundsInv(db)
    ensures RefundsInv(ApproveRefund(db, seller, r, reference, amount, allowed).db)
  {
    if BeginApproval(db, seller, r, reference, amount, allowed).error.None? {
      var i := db.requests[r].order;
      assert FindRefund(db.refunds, reference) == |db.refunds|;
      FoundLast(db.refunds, Refund(reference, i, amount, None));
      CreateKeepsRefunds(db, i, reference, amount, allowed);
      hide RefundsInv, FindRefund, RefundedTotal;
      GrantKeepsRefunds(CreateRefund(db, i, reference, amount, allowed).db, r, reference);
    }
    hide RefundsInv, CreateRefund;
  }

  predicate IsRefundOp(op: Op) {
    op.OpApproveRefund? || op.OpCompleteRefund? || op.OpCreateRefund? || op.OpPaymentRefund?
  }

  lemma RefundStepKeepsRefunds(db: Db, op: Op)
    requires RefundsInv(db) && IsRefundOp(op)
    ensures RefundsInv(Perform(db, op).db)
  {
    hide RefundsInv, SameBasis, ApproveRefund, CompleteReturnRefund, CreateRefund, CompletePaymentRefund;
    match op
    case OpApproveRefund(seller, r, reference, amount, allowed) =>
      ApproveKeepsRefunds(db, seller, r, reference, amount, allowed);
    case OpCreateRefund(i, reference, amount, allowed) => CreateKeepsRefunds(db, i, reference, amount, allowed);
    case OpCompleteRefund(seller, r, providerId, allowed) =>
      ReturnRefundBasis(db, seller, r, providerId, allowed);
      BasisKeepsInv(db, Perform(db, op).db);
    case OpPaymentRefund(k, providerId, allowed) =>
      if k < |db.refunds| {
        PaymentRefundBasis(db, k, providerId, allowed);
        BasisKeepsInv(db, Perform(db, op).db);
      }
  }

  lemma StepKeepsRefunds(db: Db, op: Op)
    requires RefundsInv(db)
    ensures RefundsInv(Perform(db, op).db)
  {
    hide RefundsInv, SameBasis, Perform;
    if IsRefundOp(op) {
      RefundStepKeepsRefunds(db, op);
    } else {
      if op.OpCapture? || op.OpMarkPaid? || op.OpProcessing? || op.OpShipped? || op.OpDelivered? || op.OpCancel? {
        OrderStepBasis(db, op);
      } else {
        PayoutStepBasis(db, op);
      }
      BasisKeepsInv(db, Perform(db, op).db);
    }
  }

  lemma CompletionIsPerformed(db: Db, op: Op)
    requires op.OpCompleteRefund?
    ensures Perform(db, op) == CompleteReturnRefund(db, op.seller, op.r, op.providerId, op.allowed)
  {
    hide CompleteReturnRefund;
  }

  lemma {:induction false} RunKeepsRefunds(db: Db, ops: seq<Op>)
    requires RefundsInv(db)
    ensures RefundsInv(Run(db, ops))
  {
    hide RefundsInv, Perform;
    if ops != [] {
      RunKeepsRefunds(db, ops[..|ops| - 1]);
      StepKeepsRefunds(Run(db, ops[..|ops| - 1]), ops[|ops| - 1]);
    }
  }

  // ---------------------------------------------------------------- when the seller side can be booked

  predicate IsOpen(p: Payout) { p.status == Held || p.status == Eligible }

  /** What the payout can give up: all of it, or no more than its net. */
  predicate Fits(p: Payout, amount: int) {
    match p.status
    case Held => amount <= p.net || amount >= p.gross
    case Eligible => amount <= p.net || amount >= p.gross
    case Reversed => p.net == 0
    case _ => true
  }

  lemma ReducedFitsIff(p: Payout, amount: int)
    requires PayoutConstraint(p) && p.net >= 0 && amount > 0
    ensures PayoutConstraint(ReducePayout(p, amount)) <==> amount <= p.net || amount >= p.gross
  {
  }

  /** Once the payment refund is accepted, the whole call succeeds if and only if the refund fits the
      payout; when it does not, the buyer has been paid and the seller side is as it was. */
  lemma CompletionSucceedsIff(db: Db, seller: int, r: nat, providerId: string, k: nat)
    requires Inv(db) && RefundsInv(db) && Waiting(db, seller, r, k)
    requires CompletePaymentRefund(db, k, providerId, true).error.None?
    ensures var after := CompleteReturnRefund(db, seller, r, providerId, true);
            && (after.error.None? <==> Fits(db.payouts[db.requests[r].order], db.refunds[k].amount))
            && (after.error.Some? ==> after.db == CompletePaymentRefund(db, k, providerId, true).db)
  {
    var x := db.requests[r];
    var i, amount, mid := x.order, db.refunds[k].amount, CompletePaymentRefund(db, k, providerId, true).db;
    PaidOutToBuyer(db, r, providerId, true, k);
    hide Inv, RefundsInv, FindRefund, CompletePaymentRefund, NamesOwnRefund;
    ApplyBasis(mid, i, amount, x.refundRef.value);
    AppliedPayout(mid, i, amount, x.refundRef.value);
    var applied := ApplyRefund(mid, i, amount, x.refundRef.value);
    hide ApplyRefund;
    if PayoutConstraint(applied.payouts[i]) {
      ApplyKeepsInv(mid, r, amount, i, x.refundRef.value);
      BookedRow(CloseRequest(applied, r), i, amount);
    }
  }

  /** The state between both halves: only the refund and its payment have changed. */
  lemma PaidOutToBuyer(db: Db, r: nat, providerId: string, allowed: bool, k: nat)
    requires Inv(db) && RefundsInv(db) && r < |db.requests| && db.requests[r].refundRef.Some?
    requires k == FindRefund(db.refunds, db.requests[r].refundRef.value) < |db.refunds|
    ensures var i, mid := db.requests[r].order, CompletePaymentRefund(db, k, providerId, allowed).db;
            && i < |db.orders| == |db.payouts| == |mid.payments| && db.refunds[k].order == i
            && 0 < db.refunds[k].amount <= db.orders[i].total
            && Inv(mid) && mid.requests == db.requests && mid.orders == db.orders && mid.payouts == db.payouts
            && mid.entries == db.entries
            && PayoutConstraint(db.payouts[i]) && db.payouts[i].net >= 0
  {
    assert db.refunds[k] in db.refunds && db.requests[r] in db.requests && NamesOwnRefund(db, db.requests[r]);
    var i := db.requests[r].order;
    PaymentRefundBasis(db, k, providerId, allowed);
    hide CompletePaymentRefund, FindRefund;
    PaymentRefundKeepsInv(db, k, providerId, allowed);
    assert RowInv(db.orders[i], db.payouts[i], db.entries, i);
    hide RequestsInv, SourcesInv, EntriesInv, ExternalInv, RowsInv, NamesOwnRefund;
  }

  lemma AppliedPayout(db: Db, i: nat, amount: int, reference: string)
    requires i < |db.payouts| && i < |db.orders| && i < |db.payments|
    requires PayoutConstraint(db.payouts[i]) && db.payouts[i].net >= 0 && amount > 0
    ensures var p := ApplyRefund(db, i, amount, reference).payouts[i];
            && p == (if IsOpen(db.payouts[i]) then ReducePayout(db.payouts[i], amount) else db.payouts[i])
            && (PayoutConstraint(p) && (p.status == Reversed ==> p.net == 0) <==> Fits(db.payouts[i], amount))
  {
    ReducedFitsIff(db.payouts[i], amount);
    hide AddEntry, Total;
  }

  /** The refund audit of a booked refund only depends on a reversed payout being worth nothing. */
  lemma BookedRow(db: Db, i: nat, amount: int)
    requires Inv(db) && i < |db.orders| && 0 < amount <= db.orders[i].total
    ensures RefundAudit(db.orders[i], db.payouts[i], db.entries, i, amount)
            <==> (db.payouts[i].status == Reversed ==> db.payouts[i].net == 0)
  {
    assert RowInv(db.orders[i], db.payouts[i], db.entries, i);
    Positive(db.payouts, db.entries) by { hide RowsInv, RequestsInv, SourcesInv, ExternalInv; }
    TotalsFromCounts(db.entries, i, RefundRecovery);
  }

  // ---------------------------------------------------------------- refused for ever

  /** A return that waits for a refund which its open payout cannot give up. */
  ghost predicate Stuck(db: Db, r: nat) {
    && r < |db.requests| && db.requests[r].status == RefundApproved && db.requests[r].refundRef.Some?
    && db.requests[r].order < |db.payouts|
    && var k, p := FindRefund(db.refunds, db.requests[r].refundRef.value), db.payouts[db.requests[r].order];
       k < |db.refunds| && IsOpen(p) && p.net < db.refunds[k].amount < p.gross
  }

  /** Every attempt to complete it is refused, whatever the provider says. */
  lemma StuckIsRefused(db: Db, seller: int, r: nat, providerId: string, allowed: bool)
    requires Inv(db) && RefundsInv(db) && Stuck(db, r)
    ensures var after := CompleteReturnRefund(db, seller, r, providerId, allowed);
            after.error.Some? && after.db.requests == db.requests && after.db.payouts == db.payouts
            && after.db.entries == db.entries
  {
    var k := FindRefund(db.refunds, db.requests[r].refundRef.value);
    var i := db.requests[r].order;
    PaymentRefundBasis(db, k, providerId, allowed);
    if Owned(db, seller, i) && CompletePaymentRefund(db, k, providerId, allowed).error.None? {
      assert RowInv(db.orders[i], db.payouts[i], db.entries, i);
      var mid := CompletePaymentRefund(db, k, providerId, allowed).db;
      hide Inv, RefundsInv, CompletePaymentRefund, FindRefund, RefundAudit;
      AppliedPayout(mid, i, db.refunds[k].amount, db.requests[r].refundRef.value);
      ReducedFitsIff(db.payouts[i], db.refunds[k].amount);
    }
    hide Inv, RefundsInv, CompletePaymentRefund, FindRefund, RefundAudit, ApplyRefund;
  }

  /** A payout only ever loses gross, never opens again, and keeps its net as long as it is open and
      keeps its gross. */
  predicate Fades(p: Payout, q: Payout) {
    && q.gross <= p.gross && (IsOpen(q) ==> IsOpen(p)) && (IsOpen(q) && q.gross == p.gross ==> q.net == p.net)
  }

  ghost predicate AllFade(db: Db, after: Db) {
    |after.payouts| == |db.payouts| && forall i :: 0 <= i < |db.payouts| ==> Fades(db.payouts[i], after.payouts[i])
  }

  lemma OrderStepFades(db: Db, op: Op)
    requires Inv(db)
    requires op.OpCapture? || op.OpMarkPaid? || op.OpProcessing? || op.OpShipped? || op.OpDelivered? || op.OpCancel?
    ensures AllFade(db, Perform(db, op).db)
  {
    hide Inv, BalanceAudit, Settle, RequestPayout, MarkPayoutPaid, OpenDispute, ResolveDispute, CompleteReturnRefund;
    hide RequestReturn, AdvanceReturn, ApproveRefund, CreateRefund, CompletePaymentRefund;
  }

  lemma PayoutStepFades(db: Db, op: Op)
    requires Inv(db)
    requires op.OpSettle? || op.OpRequestPayout? || op.OpPayoutPaid? || op.OpOpenDispute? || op.OpResolveDispute?
             || op.OpRequestReturn? || op.OpAdvanceReturn? || op.OpApproveRefund? || op.OpCreateRefund?
             || op.OpPaymentRefund?
    ensures AllFade(db, Perform(db, op).db)
  {
    hide Inv, BalanceAudit, AddEntry, Balance, CompleteReturnRefund, FindRefund, RefundedTotal;
    hide CapturePayment, MarkPaid, MarkProcessing, MarkShipped, MarkDelivered, Cancel;
  }

  lemma ReducedFades(p: Payout, amount: int)
    requires PayoutConstraint(p) && p.net >= 0 && amount > 0
    ensures Fades(p, ReducePayout(p, amount))
  {
  }

  lemma ApplyFades(db: Db, i: nat, amount: int, reference: string)
    requires i < |db.payouts| && i < |db.orders| && i < |db.payments|
    requires PayoutConstraint(db.payouts[i]) && db.payouts[i].net >= 0 && amount > 0
    ensures AllFade(db, ApplyRefund(db, i, amount, reference))
  {
    ReducedFades(db.payouts[i], amount);
    hide ReducePayout, ApplyRefund, PayoutConstraint, Fits, IsOpen;
    ApplyBasis(db, i, amount, reference);
    AppliedPayout(db, i, amount, reference);
  }

  /** A completion leaves the payouts alone, or applies the refund after the buyer has been paid. */
  lemma CompletionPayouts(db: Db, seller: int, r: nat, providerId: string, allowed: bool)
    requires RefundsInv(db) && CompleteReturnRefund(db, seller, r, providerId, allowed).db != db
    ensures r < |db.requests| && db.requests[r].refundRef.Some?
    ensures var x, k := db.requests[r], FindRefund(db.refunds, db.requests[r].refundRef.value);
            && k < |db.refunds|
            && var mid, after := CompletePaymentRefund(db, k, providerId, allowed).db,
               CompleteReturnRefund(db, seller, r, providerId, allowed).db;
               && mid.payouts == db.payouts && x.order < |mid.payouts| && x.order < |mid.orders|
               && x.order < |mid.payments|
               && (after.payouts == db.payouts
                   || after.payouts == ApplyRefund(mid, x.order, db.refunds[k].amount, x.refundRef.value).payouts)
  {
    hide RefundsInv, RefundAudit, PayoutConstraint, CompletePaymentRefund, ApplyRefund;
  }

  lemma CompletionFades(db: Db, seller: int, r: nat, providerId: string, allowed: bool)
    requires Inv(db) && RefundsInv(db)
    ensures AllFade(db, CompleteReturnRefund(db, seller, r, providerId, allowed).db)
  {
    NothingFades(db);
    if CompleteReturnRefund(db, seller, r, providerId, allowed).db != db {
      hide Inv, RefundsInv, CompletePaymentRefund, FindRefund, ApplyRefund, PayoutConstraint, Fades,
           CompleteReturnRefund;
      CompletionPayouts(db, seller, r, providerId, allowed);
      var k := FindRefund(db.refunds, db.requests[r].refundRef.value);
      PaidOutToBuyer(db, r, providerId, allowed, k);
      ApplyFades(CompletePaymentRefund(db, k, providerId, allowed).db, db.requests[r].order, db.refunds[k].amount,
                 db.requests[r].refundRef.value);
    }
  }

  lemma NothingFades(db: Db)
    ensures AllFade(db, db)
  {
  }

  lemma StepFades(db: Db, op: Op)
    requires Inv(db) && RefundsInv(db)
    ensures AllFade(db, Perform(db, op).db)
  {
    if op.OpCompleteRefund? {
      CompletionIsPerformed(db, op);
      hide *;
      CompletionFades(db, op.seller, op.r, op.providerId, op.allowed);
    } else {
      hide *;
      if op.OpCapture? || op.OpMarkPaid? || op.OpProcessing? || op.OpShipped? || op.OpDelivered? || op.OpCancel? {
        OrderStepFades(db, op);
      } else {
        PayoutStepFades(db, op);
      }
    }
  }

  /** What a step other than moving the return by hand leaves of a waiting return and its refund. */
  predicate KeepsReturn(db: Db, after: Db, r: nat) {
    && r < |after.requests| && r < |db.requests| && after.requests[r] == db.requests[r]
    && |db.refunds| <= |after.refunds|
    && forall k :: 0 <= k < |db.refunds| ==> after.refunds[k].(providerId := None) == db.refunds[k].(providerId := None)
  }

  lemma OrderStepKeepsReturn(db: Db, op: Op, r: nat)
    requires r < |db.requests|
    requires op.OpCapture? || op.OpMarkPaid? || op.OpProcessing? || op.OpShipped? || op.OpDelivered? || op.OpCancel?
    ensures KeepsReturn(db, Perform(db, op).db, r)
  {
    hide BalanceAudit, Settle, RequestPayout, MarkPayoutPaid, OpenDispute, ResolveDispute, CompleteReturnRefund;
    hide RequestReturn, AdvanceReturn, ApproveRefund, CreateRefund, CompletePaymentRefund;
  }

  lemma PayoutStepKeepsReturn(db: Db, op: Op, r: nat)
    requires r < |db.requests| && db.requests[r].status == RefundApproved && !(op.OpAdvanceReturn? && op.r == r)
    requires op.OpSettle? || op.OpRequestPayout? || op.OpPayoutPaid? || op.OpOpenDispute? || op.OpResolveDispute?
             || op.OpRequestReturn? || op.OpAdvanceReturn? || op.OpApproveRefund? || op.OpCreateRefund?
             || op.OpPaymentRefund?
    ensures KeepsReturn(db, Perform(db, op).db, r)
  {
    hide BalanceAudit, AddEntry, Balance, CompleteReturnRefund, FindRefund, RefundedTotal;
    hide CapturePayment, MarkPaid, MarkProcessing, MarkShipped, MarkDelivered, Cancel;
  }

  lemma StuckSteps(db: Db, op: Op, r: nat)
    requires Inv(db) && RefundsInv(db) && Stuck(db, r) && !(op.OpAdvanceReturn? && op.r == r)
    ensures KeepsReturn(db, Perform(db, op).db, r)
  {
    assert r < |db.requests| && db.requests[r].status == RefundApproved;
    if op.OpCompleteRefund? {
      CompletionIsPerformed(db, op);
      hide Perform, CompleteReturnRefund, Inv, RefundsInv, Stuck;
      ReturnRefundBasis(db, op.seller, op.r, op.providerId, op.allowed);
      if op.r == r {
        StuckIsRefused(db, op.seller, r, op.providerId, op.allowed);
      } else {
        OtherReturnsKept(db, op.seller, op.r, op.providerId, op.allowed, r);
      }
    } else {
      hide *;
      if op.OpCapture? || op.OpMarkPaid? || op.OpProcessing? || op.OpShipped? || op.OpDelivered? || op.OpCancel? {
        OrderStepKeepsReturn(db, op, r);
      } else {
        PayoutStepKeepsReturn(db, op, r);
      }
    }
  }

  lemma OtherReturnsKept(db: Db, seller: int, s: nat, providerId: string, allowed: bool, r: nat)
    requires RefundsInv(db) && r < |db.requests| && r != s
    ensures var after := CompleteReturnRefund(db, seller, s, providerId, allowed).db;
            r < |after.requests| && after.requests[r] == db.requests[r]
  {
    hide NamesOwnRefund, FindRefund, RefundAudit, PayoutConstraint, CompletePaymentRefund, ApplyRefund;
    var after := CompleteReturnRefund(db, seller, s, providerId, allowed);
    if after.db != db {
      PaymentRefundBasis(db, FindRefund(db.refunds, db.requests[s].refundRef.value), providerId, allowed);
    }
  }

  lemma StaysStuck(db: Db, after: Db, r: nat)
    requires Stuck(db, r) && KeepsReturn(db, after, r) && AllFade(db, after)
    requires IsOpen(after.payouts[db.requests[r].order])
    requires after.payouts[db.requests[r].order].gross == db.payouts[db.requests[r].order].gross
    ensures Stuck(after, r)
  {
    FoundAgain(db.refunds, after.refunds, db.requests[r].refundRef.value);
    var k := FindRefund(db.refunds, db.requests[r].refundRef.value);
    assert after.refunds[k].(providerId := None).amount == db.refunds[k].(providerId := None).amount;
    hide FindRefund;
  }

  /** Main result, over every run of whole calls: as long as nobody moves the return by hand, it is never refunded while
      its payout is open and keeps its gross amount; every completion is refused. */
  lemma {:induction false} NeverRefunded(db: Db, ops: seq<Op>, r: nat)
    requires Inv(db) && RefundsInv(db) && Stuck(db, r)
    requires forall op :: op in ops ==> !(op.OpAdvanceReturn? && op.r == r)
    ensures var i, after := db.requests[r].order, Run(db, ops);
            && i < |after.payouts| && Inv(after) && RefundsInv(after) && Fades(db.payouts[i], after.payouts[i])
            && (IsOpen(after.payouts[i]) && after.payouts[i].gross == db.payouts[i].gross ==>
                  && Stuck(after, r) && after.requests[r] == db.requests[r]
                  && forall seller: int, providerId: string, allowed: bool ::
                       CompleteReturnRefund(after, seller, r, providerId, allowed).error.Some?)
  {
    var i := db.requests[r].order;
    if ops == [] {
      assert Run(db, ops) == db;
      hide Inv, RefundsInv, CompleteReturnRefund, Stuck;
    } else {
      var n := |ops| - 1;
      assert forall op :: op in ops[..n] ==> op in ops;
      NeverRefunded(db, ops[..n], r);
      var mid := Run(db, ops[..n]);
      assert Run(db, ops) == Perform(mid, ops[n]).db && ops[n] in ops;
      hide Inv, RefundsInv, CompleteReturnRefund, Perform, Run, Stuck;
      StepKeepsInv(mid, ops[n]);
      StepKeepsRefunds(mid, ops[n]);
      StepFades(mid, ops[n]);
      var after := Perform(mid, ops[n]).db;
      if IsOpen(after.payouts[i]) && after.payouts[i].gross == db.payouts[i].gross {
        StuckSteps(mid, ops[n], r);
        StaysStuck(mid, after, r);
      }
    }
    var after := Run(db, ops);
    hide Inv, RefundsInv, CompleteReturnRefund, Stuck;
    if IsOpen(after.payouts[i]) && after.payouts[i].gross == db.payouts[i].gross {
      forall seller: int, providerId: string, allowed: bool
        ensures CompleteReturnRefund(after, seller, r, providerId, allowed).error.Some?
      {
        StuckIsRefused(after, seller, r, providerId, allowed);
      }
    }
  }

  /** What checkout leaves, and every run of whole calls from there, satisfies both invariants. */
  lemma ReachedFromStart(start: Db, ops: seq<Op>)
    requires Start(start)
    ensures Inv(Run(start, ops)) && RefundsInv(Run(start, ops))
  {
    assert RefundsInv(start);
    StartIsInv(start);
    hide *;
    SellerInvariant.RunKeepsInv(start, ops);
    RunKeepsRefunds(start, ops);
  }

  // ---------------------------------------------------------------- such a return

  const ACCOUNT := Account(1, 1, "USD")

  /** An order of 100, less a discount of 10 that the seller funds; the platform's fee is 5. */
  const DISCOUNTED := Db(
    [Order(ACCOUNT, PendingPayment, 90, None)],
    [Payout(ACCOUNT, Held, 100, 10, 5, 85, false, None, None, None, None)], [None], [None], [], [], [])

  /** Captured, delivered, returned, inspected, and its full refund approved. */
  const FULL_REFUND := [
    OpCapture(1, 0, "pay"), OpShipped(1, 0, false, true), OpRequestReturn(0), OpAdvanceReturn(0, Approved),
    OpAdvanceReturn(0, Pickup), OpAdvanceReturn(0, Received), OpAdvanceReturn(0, Inspected),
    OpApproveRefund(1, 0, "refund", 90, true)]

  /** The operations from the i-th on. */
  function RunFrom(db: Db, ops: seq<Op>, i: nat): Db
    requires i <= |ops|
    decreases |ops| - i
  {
    if i == |ops| then db else RunFrom(Perform(db, ops[i]).db, ops, i + 1)
  }

  lemma {:induction false} RunInOrder(db: Db, ops: seq<Op>, i: nat)
    requires i <= |ops|
    ensures RunFrom(Run(db, ops[..i]), ops, i) == Run(db, ops)
    decreases |ops| - i
  {
    hide Perform;
    if i == |ops| {
      assert ops[..i] == ops;
    } else {
      assert ops[..i + 1][..i] == ops[..i];
      RunInOrder(db, ops, i + 1);
    }
  }

  /** The delivered order, with its return in the given status. */
  function Returned(status: ReturnStatus): Db {
    Db([Order(ACCOUNT, Delivered, 90, Some("pay"))], [DISCOUNTED.payouts[0].(paymentRef := Some("pay"))],
       [Some(Payment(90, false))], [None], [Return(0, status, None)], [], [])
  }

  const APPROVED := Returned(Inspected).(
    requests := [Return(0, RefundApproved, Some("refund"))], refunds := [Refund("refund", 0, 90, None)])

  lemma IsReturned()
    ensures RunFrom(DISCOUNTED, FULL_REFUND, 0) == RunFrom(Returned(Requested), FULL_REFUND, 3)
  {
    var paid := Returned(Requested).(orders := [Order(ACCOUNT, Paid, 90, Some("pay"))], requests := []);
    assert Perform(DISCOUNTED, FULL_REFUND[0]).db == paid;
    var delivered := Returned(Requested).(requests := []);
    assert Perform(paid, FULL_REFUND[1]).db == delivered;
    assert Perform(delivered, FULL_REFUND[2]).db == Returned(Requested);
    hide Perform;
    assert RunFrom(DISCOUNTED, FULL_REFUND, 0) == RunFrom(paid, FULL_REFUND, 1) == RunFrom(delivered, FULL_REFUND, 2);
  }

  lemma Moves(from: ReturnStatus, to: ReturnStatus, i: nat)
    requires i < |FULL_REFUND| && FULL_REFUND[i] == OpAdvanceReturn(0, to) && ReturnMove(from, to)
    ensures RunFrom(Returned(from), FULL_REFUND, i) == RunFrom(Returned(to), FULL_REFUND, i + 1)
  {
    assert Perform(Returned(from), FULL_REFUND[i]).db == Returned(to);
    hide Perform;
  }

  lemma IsApproved()
    ensures RunFrom(Returned(Inspected), FULL_REFUND, 7) == APPROVED
  {
    assert Perform(Returned(Inspected), FULL_REFUND[7]).db == APPROVED;
    hide Perform;
    assert RunFrom(APPROVED, FULL_REFUND, 8) == APPROVED;
  }

  lemma ApprovedRun()
    ensures Run(DISCOUNTED, FULL_REFUND) == APPROVED
  {
    hide RunFrom, Returned, APPROVED;
    RunInOrder(DISCOUNTED, FULL_REFUND, 0);
    assert FULL_REFUND[..0] == [];
    IsReturned();
    Moves(Requested, Approved, 3);
    Moves(Approved, Pickup, 4);
    Moves(Pickup, Received, 5);
    Moves(Received, Inspected, 6);
    IsApproved();
    assert Run(DISCOUNTED, []) == DISCOUNTED;
  }

  /** The full refund of the discounted order: the buyer gets it, and the return is stuck. */
  lemma FullRefundIsStuck()
    ensures Start(DISCOUNTED) && Stuck(Run(DISCOUNTED, FULL_REFUND), 0)
    ensures var after := CompleteReturnRefund(Run(DISCOUNTED, FULL_REFUND), 1, 0, "provider", true);
            after.error == Some(ConstraintViolation) && after.db.refunds == [Refund("refund", 0, 90, Some("provider"))]
  {
    ApprovedRun();
    hide Run;
  }
}
