/** What the signed balance of a seller account means, over every run of the seller ledger. */
module SellerBalance {
  import opened Outcomes
  import opened SellerInvariant
  import opened SellerLedger

  // ---------------------------------------------------------------- the balance, payout by payout

  /** What the ledger still owes the seller for one payout: its net once credited and until paid;
      afterwards only what refunds took back. */
  ghost function Exposure(p: Payout, entries: seq<Entry>, i: nat): int {
    if p.status == PaidOut then -Total(entries, i, RefundRecovery)
    else if Count(entries, i, Credit) == 1 then p.net
    else 0
  }

  ghost function ExposureSum(payouts: seq<Payout>, entries: seq<Entry>, account: Account, n: nat): int
    requires n <= |payouts|
  {
    if n == 0 then 0
    else
      ExposureSum(payouts, entries, account, n - 1)
      + if payouts[n - 1].account == account then Exposure(payouts[n - 1], entries, n - 1) else 0
  }

  /** The signed total of one payout's entries. */
  ghost function SignedTotal(entries: seq<Entry>, i: nat): int {
    Total(entries, i, Credit) - Total(entries, i, PayoutDebit) - Total(entries, i, RefundReversal)
        - Total(entries, i, RefundRecovery)
  }

  ghost function SignedSum(payouts: seq<Payout>, entries: seq<Entry>, account: Account, n: nat): int
    requires n <= |payouts|
  {
    if n == 0 then 0
    else SignedSum(payouts, entries, account, n - 1)
         + if payouts[n - 1].account == account then SignedTotal(entries, n - 1) else 0
  }

  lemma SignedTotalAdded(entries: seq<Entry>, e: Entry, i: nat)
    ensures SignedTotal(entries + [e], i) == SignedTotal(entries, i) + if e.payout == i then Signed(e) else 0
  {
    EntryAdded(entries, e, i, Credit);
    EntryAdded(entries, e, i, PayoutDebit);
    EntryAdded(entries, e, i, RefundReversal);
    EntryAdded(entries, e, i, RefundRecovery);
  }

  lemma {:induction false} SignedSumAdded(payouts: seq<Payout>, entries: seq<Entry>, e: Entry, account: Account, n: nat)
    requires n <= |payouts| && e.payout < |payouts| && e.account == payouts[e.payout].account
    ensures SignedSum(payouts, entries + [e], account, n)
         == SignedSum(payouts, entries, account, n) + if e.payout < n && e.account == account then Signed(e) else 0
  {
    hide SignedTotal, Signed;
    if n > 0 {
      SignedSumAdded(payouts, entries, e, account, n - 1);
      SignedTotalAdded(entries, e, n - 1);
    }
  }

  lemma {:induction false} SignedSumEmpty(payouts: seq<Payout>, account: Account, n: nat)
    requires n <= |payouts|
    ensures SignedSum(payouts, [], account, n) == 0
  {
    if n > 0 { SignedSumEmpty(payouts, account, n - 1); }
  }

  /** The entries of an account are partitioned by its payouts. */
  lemma {:induction false} BalanceBySigned(payouts: seq<Payout>, entries: seq<Entry>, account: Account)
    requires EntriesInv(payouts, entries)
    ensures Balance(entries, account) == SignedSum(payouts, entries, account, |payouts|)
  {
    hide SignedSum;
    if entries == [] {
      SignedSumEmpty(payouts, account, |payouts|);
    } else {
      var init, e := entries[..|entries| - 1], entries[|entries| - 1];
      assert e in entries && EntryInv(e, payouts) && entries == init + [e];
      BalanceBySigned(payouts, init, account);
      SignedSumAdded(payouts, init, e, account, |payouts|);
    }
  }

  lemma SignedIsExposure(p: Payout, entries: seq<Entry>, i: nat)
    requires PayoutInv(p, entries, i) && forall e :: e in entries ==> e.amount > 0
    ensures SignedTotal(entries, i) == Exposure(p, entries, i)
  {
    TotalsFromCounts(entries, i, Credit);
    TotalsFromCounts(entries, i, PayoutDebit);
    TotalsFromCounts(entries, i, RefundReversal);
    TotalsFromCounts(entries, i, RefundRecovery);
  }

  lemma {:induction false} SumsAgree(db: Db, account: Account, n: nat)
    requires LedgerInv(db) && n <= |db.payouts|
    ensures SignedSum(db.payouts, db.entries, account, n) == ExposureSum(db.payouts, db.entries, account, n)
  {
    hide SignedTotal, Exposure, PayoutInv, ExternalInv, EntriesInv;
    if n > 0 {
      SumsAgree(db, account, n - 1);
      assert RowInv(db.orders[n - 1], db.payouts[n - 1], db.entries, n - 1);
      Positive(db.payouts, db.entries);
      SignedIsExposure(db.payouts[n - 1], db.entries, n - 1);
    }
  }

  /** The signed balance of an account is what the ledger still owes the seller for its payouts. */
  ghost predicate BalanceIsOwed(db: Db, account: Account) {
    Balance(db.entries, account) == ExposureSum(db.payouts, db.entries, account, |db.payouts|)
  }

  lemma LedgerIsOwed(db: Db, account: Account)
    requires LedgerInv(db)
    ensures BalanceIsOwed(db, account)
  {
    hide ExposureSum, SignedSum, Balance, RowsInv, ExternalInv;
    BalanceBySigned(db.payouts, db.entries, account);
    SumsAgree(db, account, |db.payouts|);
  }

  /** Main result, over every run of whole calls from what checkout leaves: the signed balance of an account
      is the net of its credited unpaid payouts minus the recoveries on its paid ones. */
  lemma BalanceIsExposure(start: Db, ops: seq<Op>, account: Account)
    requires Start(start)
    ensures var db := Run(start, ops);
            Balance(db.entries, account) == ExposureSum(db.payouts, db.entries, account, |db.payouts|)
  {
    hide ExposureSum, Balance, Run, Start, LedgerInv, ReturnsInv;
    StartIsInv(start);
    RunKeepsInv(start, ops);
    LedgerIsOwed(Run(start, ops), account);
  }

  /** In every run of whole calls a paid payout has one credit and one debit, both of its net, no reversal, and
      recoveries of at most its net; its external reference is its own. */
  lemma PaidPayoutIsClosed(start: Db, ops: seq<Op>, i: nat)
    requires Start(start) && i < |Run(start, ops).payouts| && Run(start, ops).payouts[i].status == PaidOut
    ensures var db := Run(start, ops);
            && Count(db.entries, i, Credit) == 1 && Total(db.entries, i, Credit) == db.payouts[i].net
            && Count(db.entries, i, PayoutDebit) == 1 && Total(db.entries, i, PayoutDebit) == db.payouts[i].net
            && Count(db.entries, i, RefundReversal) == 0
            && 0 <= Total(db.entries, i, RefundRecovery) <= db.payouts[i].net
            && db.payouts[i].externalRef.Some?
            && forall k :: 0 <= k < |db.payouts| && k != i ==> db.payouts[k].externalRef != db.payouts[i].externalRef
  {
    hide Run, Start, Count, Total, EntriesInv, RequestsInv, SourcesInv;
    StartIsInv(start);
    RunKeepsInv(start, ops);
    var db := Run(start, ops);
    assert RowInv(db.orders[i], db.payouts[i], db.entries, i);
  }

  // ---------------------------------------------------------------- paying out

  lemma BalanceAdded(entries: seq<Entry>, e: Entry, account: Account)
    ensures Balance(entries + [e], account) == Balance(entries, account) + if e.account == account then Signed(e) else 0
  {
    assert (entries + [e])[..|entries|] == entries;
  }

  /** A payout is paid out of the balance: the balance falls by exactly its net and not below zero,
      and no other account moves. */
  lemma DebitIsCovered(db: Db, seller: int, i: nat, externalRef: string, allowed: bool, orderAudit: bool,
                       account: Account)
    requires Inv(db) && i < |db.payouts| && db.payouts[i].status != PaidOut
    requires MarkPayoutPaid(db, seller, i, externalRef, allowed, orderAudit).error.None?
    ensures var after := MarkPayoutPaid(db, seller, i, externalRef, allowed, orderAudit).db;
            && after.payouts[i].status == PaidOut
            && db.payouts[i].net > 0
            && if account == db.payouts[i].account
               then 0 <= Balance(after.entries, account) == Balance(db.entries, account) - db.payouts[i].net
               else Balance(after.entries, account) == Balance(db.entries, account)
  {
    hide Balance, RequestsInv, SourcesInv;
    var p := db.payouts[i];
    var e := EntryFor(db, i, PayoutDebit, p.net, if p.payoutRef.Some? then p.payoutRef.value else externalRef);
    assert RowInv(db.orders[i], p, db.entries, i);
    hide RowsInv;
    NoEntry(db.entries, i, PayoutDebit, e.source);
    BalanceAdded(db.entries, e, account);
  }

  /** The net was all of the account's exposure that is needed: paying fails for lack of funds exactly
      when the recoveries on paid payouts exceed the other credited, unpaid nets. */
  lemma InsufficientIff(db: Db, seller: int, i: nat, externalRef: string, orderAudit: bool)
    requires Inv(db) && Owned(db, seller, i) && !Blocked(db.orders[i].status) && db.payouts[i].status == InProcess
    requires db.payouts[i].paymentRef.Some? && db.payouts[i].settlementRef.Some? && externalRef != ""
    requires forall k :: 0 <= k < |db.payouts| ==> db.payouts[k].externalRef != Some(externalRef)
    ensures MarkPayoutPaid(db, seller, i, externalRef, true, orderAudit).error == Some(InsufficientBalance) <==>
              ExposureSum(db.payouts, db.entries, db.payouts[i].account, |db.payouts|) < db.payouts[i].net
  {
    hide ExposureSum, SignedSum, Balance, RowsInv, ExternalInv, RequestsInv, SourcesInv;
    BalanceBySigned(db.payouts, db.entries, db.payouts[i].account);
    SumsAgree(db, db.payouts[i].account, |db.payouts|);
  }

  // ---------------------------------------------------------------- paid is final

  predicate Paid(db: Db, i: nat) { i < |db.payouts| && db.payouts[i].status == PaidOut }

  /** What a step may do to a payout: once paid it keeps its net and reference, and it becomes paid
      only with something to pay. */
  ghost predicate PayoutStep(db: Db, db': Db, i: nat) {
    && |db'.payouts| == |db.payouts|
    && (i < |db.payouts| ==>
          var p, p' := db.payouts[i], db'.payouts[i];
          && (p.status == PaidOut ==> p'.status == PaidOut && p'.net == p.net && p'.externalRef == p.externalRef)
          && (p'.status == PaidOut ==> p.status == PaidOut || p.net > 0))
  }

  lemma MarkPaidPayoutStep(db: Db, seller: int, j: nat, reference: string, captured: bool, i: nat)
    ensures PayoutStep(db, MarkPaid(db, seller, j, reference, captured).db, i)
  {
    hide BalanceAudit;
  }

  lemma CancelPayoutStep(db: Db, j: nat, i: nat)
    requires Inv(db)
    ensures PayoutStep(db, Cancel(db, j).db, i)
  {
    hide ExternalInv, EntriesInv, RequestsInv, SourcesInv, PayoutInv;
    if j < |db.orders| { assert RowInv(db.orders[j], db.payouts[j], db.entries, j); }
  }

  lemma SettlePayoutStep(db: Db, seller: int, j: nat, settlementRef: string, verified: bool, orderAudit: bool, i: nat)
    ensures PayoutStep(db, Settle(db, seller, j, settlementRef, verified, orderAudit).db, i)
  {
    hide BalanceAudit, AddEntry;
  }

  lemma DebitPayoutStep(db: Db, seller: int, j: nat, externalRef: string, allowed: bool, orderAudit: bool, i: nat)
    requires Inv(db)
    ensures PayoutStep(db, MarkPayoutPaid(db, seller, j, externalRef, allowed, orderAudit).db, i)
  {
    hide RowsInv, RequestsInv, SourcesInv, EntriesInv;
    if j < |db.payouts| && db.payouts[j].status != PaidOut
       && MarkPayoutPaid(db, seller, j, externalRef, allowed, orderAudit).error.None? {
      DebitIsCovered(db, seller, j, externalRef, allowed, orderAudit, db.payouts[j].account);
    }
  }

  lemma ApplyPayoutStep(db: Db, j: nat, amount: int, reference: string, i: nat)
    requires j < |db.payouts| && j < |db.orders| && j < |db.payments|
    ensures PayoutStep(db, ApplyRefund(db, j, amount, reference), i)
  {
    hide AddEntry, Total;
  }

  lemma RefundPayoutStep(db: Db, seller: int, r: nat, providerId: string, allowed: bool, i: nat)
    ensures PayoutStep(db, CompleteReturnRefund(db, seller, r, providerId, allowed).db, i)
  {
    hide PayoutConstraint, RefundAudit, RefundedTotal, ApplyRefund, FindRefund, CompletePaymentRefund;
    var after := CompleteReturnRefund(db, seller, r, providerId, allowed);
    if after.error.None? && after.db != db {
      var k := FindRefund(db.refunds, db.requests[r].refundRef.value);
      var mid := CompletePaymentRefund(db, k, providerId, allowed).db;
      ApplyPayoutStep(mid, db.requests[r].order, db.refunds[k].amount, db.requests[r].refundRef.value, i);
    }
  }

  lemma StepOnPayout(db: Db, op: Op, i: nat)
    requires Inv(db)
    ensures PayoutStep(db, Perform(db, op).db, i)
  {
    hide Inv, MarkPaid, Cancel, Settle, MarkPayoutPaid, CompleteReturnRefund, BalanceAudit, FindRefund, RefundedTotal;
    match op
    case OpMarkPaid(seller, j, reference, captured) =>
      hide PayoutStep; MarkPaidPayoutStep(db, seller, j, reference, captured, i);
    case OpCancel(j) => hide PayoutStep; CancelPayoutStep(db, j, i);
    case OpSettle(seller, j, settlementRef, verified, audit) =>
      hide PayoutStep; SettlePayoutStep(db, seller, j, settlementRef, verified, audit, i);
    case OpPayoutPaid(seller, j, externalRef, allowed, audit) =>
      hide PayoutStep; DebitPayoutStep(db, seller, j, externalRef, allowed, audit, i);
    case OpCompleteRefund(seller, r, providerId, allowed) =>
      hide PayoutStep; RefundPayoutStep(db, seller, r, providerId, allowed, i);
    case _ =>
  }

  /** Whatever is tried afterwards, a paid payout stays paid, with its net and its reference. */
  lemma {:induction false} PaidIsFinal(db: Db, ops: seq<Op>, i: nat)
    requires Inv(db) && Paid(db, i)
    ensures Paid(Run(db, ops), i)
    ensures Run(db, ops).payouts[i].net == db.payouts[i].net
    ensures Run(db, ops).payouts[i].externalRef == db.payouts[i].externalRef
  {
    hide Inv, Perform;
    if ops != [] {
      PaidIsFinal(db, ops[..|ops| - 1], i);
      RunKeepsInv(db, ops[..|ops| - 1]);
      StepOnPayout(Run(db, ops[..|ops| - 1]), ops[|ops| - 1], i);
    }
  }

  // ---------------------------------------------------------------- when the audit gets in the way

  /** Before the order is complete its payment can be settled only when the payout is worth nothing:
      the audit demands a credit that only a completed order gets. */
  lemma EarlySettlementIff(db: Db, seller: int, i: nat, settlementRef: string)
    requires Inv(db) && Owned(db, seller, i) && db.payouts[i].status == Held && db.orders[i].paymentRef.Some?
    requires db.orders[i].status in {SellerLedger.Paid, Processing, Shipped, Delivered}
    ensures Settle(db, seller, i, settlementRef, true, true).error.None? <==> db.payouts[i].net == 0
  {
    hide RequestsInv, SourcesInv, ExternalInv;
    HeldPayoutAudit(db, i);
  }

  /** Once the order is complete, a held payout without a settlement is always settled, and credited
      when it is worth something. */
  lemma SettlementCredits(db: Db, seller: int, i: nat, settlementRef: string)
    requires Inv(db) && Owned(db, seller, i) && db.payouts[i].status == Held && db.orders[i].paymentRef.Some?
    requires db.orders[i].status == Completed
    ensures var after := Settle(db, seller, i, settlementRef, true, true);
            && after.error.None? && after.db.payouts[i].status == Eligible
            && Balance(after.db.entries, db.payouts[i].account)
               == Balance(db.entries, db.payouts[i].account) + db.payouts[i].net
  {
    hide RequestsInv, SourcesInv, ExternalInv, Balance;
    var e := EntryFor(db, i, Credit, db.payouts[i].net, "settlement:" + settlementRef);
    HeldPayoutAudit(db, i);
    NoEntry(db.entries, i, Credit, e.source);
    OwnPayout(db.entries, e);
    BalanceAdded(db.entries, e, e.account);
  }

  /** Marking an order paid by hand meets the same audit. */
  lemma MarkPaidIff(db: Db, seller: int, i: nat, reference: string)
    requires Inv(db) && Owned(db, seller, i) && db.orders[i].status == PendingPayment
    ensures MarkPaid(db, seller, i, reference, true).error.None? <==> db.payouts[i].net == 0
  {
    hide RequestsInv, SourcesInv, ExternalInv;
    assert RowInv(db.orders[i], db.payouts[i], db.entries, i);
    HeldPayoutAudit(db, i);
  }

  lemma HeldPayoutAudit(db: Db, i: nat)
    requires Inv(db) && i < |db.payouts| && db.payouts[i].status == Held
    ensures Total(db.entries, i, Credit) == Total(db.entries, i, RefundReversal) == 0
    ensures Count(db.entries, i, Credit) == Count(db.entries, i, PayoutDebit) == Count(db.entries, i, RefundRecovery)
            == 0
  {
    hide RequestsInv, SourcesInv, ExternalInv;
    assert RowInv(db.orders[i], db.payouts[i], db.entries, i);
    Positive(db.payouts, db.entries);
    TotalsFromCounts(db.entries, i, Credit);
    TotalsFromCounts(db.entries, i, RefundReversal);
  }

  // ---------------------------------------------------------------- refunds against a payout in process

  predicate RefundedInProcess(db: Db, i: nat) {
    && i < |db.orders| && i < |db.payouts| && i < |db.payments|
    && db.orders[i].status in {Refunded, PartiallyRefunded} && db.payments[i].Some?
    && db.payouts[i].status == InProcess
  }

  /** A refund that completes while the payout is in process is in no entry of the ledger. */
  lemma InProcessRefundLeavesNoEntry(db: Db, seller: int, r: nat, providerId: string)
    requires r < |db.requests| && Owned(db, seller, db.requests[r].order)
    requires db.payouts[db.requests[r].order].status == InProcess
    ensures CompleteReturnRefund(db, seller, r, providerId, true).db.entries == db.entries
  {
    hide RefundedTotal, RefundAudit, PayoutConstraint, FindRefund;
  }

  lemma ApplyOnInProcess(db: Db, j: nat, amount: int, reference: string, i: nat)
    requires RefundedInProcess(db, i) && j < |db.payouts| && j < |db.orders| && j < |db.payments|
    ensures RefundedInProcess(ApplyRefund(db, j, amount, reference), i)
    ensures ApplyRefund(db, j, amount, reference).payouts[i].net == db.payouts[i].net
  {
    hide AddEntry, Total;
  }

  lemma PaymentRefundOnInProcess(db: Db, k: nat, providerId: string, allowed: bool, i: nat)
    requires RefundedInProcess(db, i) && k < |db.refunds|
    ensures RefundedInProcess(CompletePaymentRefund(db, k, providerId, allowed).db, i)
    ensures CompletePaymentRefund(db, k, providerId, allowed).db.payouts == db.payouts
    ensures CompletePaymentRefund(db, k, providerId, allowed).db.orders == db.orders
    ensures |CompletePaymentRefund(db, k, providerId, allowed).db.payments| == |db.payments|
  {
    hide RefundedTotal;
  }

  lemma RefundOnInProcess(db: Db, seller: int, r: nat, providerId: string, allowed: bool, i: nat)
    requires RefundedInProcess(db, i)
    ensures RefundedInProcess(CompleteReturnRefund(db, seller, r, providerId, allowed).db, i)
    ensures CompleteReturnRefund(db, seller, r, providerId, allowed).db.payouts[i].net == db.payouts[i].net
  {
    hide RefundAudit, FindRefund, PayoutConstraint, CompletePaymentRefund, ApplyRefund;
    var after := CompleteReturnRefund(db, seller, r, providerId, allowed);
    if after.db != db {
      var k := FindRefund(db.refunds, db.requests[r].refundRef.value);
      var mid := CompletePaymentRefund(db, k, providerId, allowed).db;
      PaymentRefundOnInProcess(db, k, providerId, allowed, i);
      if after.error.None? {
        ApplyOnInProcess(mid, db.requests[r].order, db.refunds[k].amount, db.requests[r].refundRef.value, i);
      }
    }
  }

  lemma RefundOpOnInProcess(db: Db, op: Op, i: nat)
    requires RefundedInProcess(db, i) && (op.OpCompleteRefund? || op.OpPaymentRefund?)
    ensures RefundedInProcess(Perform(db, op).db, i) && Perform(db, op).db.payouts[i].net == db.payouts[i].net
  {
    hide CompleteReturnRefund, CompletePaymentRefund;
    if op.OpCompleteRefund? { RefundOnInProcess(db, op.seller, op.r, op.providerId, op.allowed, i); }
    else if op.k < |db.refunds| { PaymentRefundOnInProcess(db, op.k, op.providerId, op.allowed, i); }
  }

  lemma OrderStepOnInProcess(db: Db, op: Op, i: nat)
    requires RefundedInProcess(db, i)
    requires op.OpCapture? || op.OpMarkPaid? || op.OpProcessing? || op.OpShipped? || op.OpDelivered? || op.OpCancel?
    ensures RefundedInProcess(Perform(db, op).db, i) && Perform(db, op).db.payouts[i].net == db.payouts[i].net
  {
    hide BalanceAudit, Settle, RequestPayout, MarkPayoutPaid, OpenDispute, ResolveDispute, CompleteReturnRefund;
    hide RequestReturn, AdvanceReturn, ApproveRefund;
  }

  lemma PayoutStepOnInProcess(db: Db, op: Op, i: nat)
    requires RefundedInProcess(db, i)
    requires op.OpSettle? || op.OpRequestPayout? || op.OpPayoutPaid? || op.OpOpenDispute? || op.OpResolveDispute?
             || op.OpRequestReturn? || op.OpAdvanceReturn? || op.OpApproveRefund? || op.OpCreateRefund?
    ensures RefundedInProcess(Perform(db, op).db, i) && Perform(db, op).db.payouts[i].net == db.payouts[i].net
  {
    hide BalanceAudit, RefundedTotal, FindRefund, AddEntry, Balance;
    hide CapturePayment, MarkPaid, MarkProcessing, MarkShipped, MarkDelivered, Cancel, CompleteReturnRefund;
  }

  /** From then on the payout stays in process: no run pays, reverses or reduces it. */
  lemma {:induction false} InProcessRefundIsStuck(db: Db, ops: seq<Op>, i: nat)
    requires RefundedInProcess(db, i)
    ensures RefundedInProcess(Run(db, ops), i) && Run(db, ops).payouts[i].net == db.payouts[i].net
  {
    hide Perform;
    if ops != [] {
      var n := |ops| - 1;
      InProcessRefundIsStuck(db, ops[..n], i);
      var mid, op := Run(db, ops[..n]), ops[n];
      if op.OpCompleteRefund? || op.OpPaymentRefund? {
        RefundOpOnInProcess(mid, op, i);
      } else if op.OpCapture? || op.OpMarkPaid? || op.OpProcessing? || op.OpShipped? || op.OpDelivered?
          || op.OpCancel? {
        OrderStepOnInProcess(mid, op, i);
      } else {
        PayoutStepOnInProcess(mid, op, i);
      }
    }
  }
}
