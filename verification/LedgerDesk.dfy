/** The seller side of an order, with the rows as fields that are updated in place: its life cycle,
    its payout, its refunds and the balance entries they leave. */
module LedgerDesk {
  import opened Outcomes
  import opened SellerLedger

  class Ledger {
    var orders: seq<Order>
    var payouts: seq<Payout>
    var payments: seq<Option<Payment>>
    var disputes: seq<Option<DisputeStatus>>
    var requests: seq<Return>
    var refunds: seq<Refund>
    var entries: seq<Entry>

    constructor (db: Db)
      requires Start(db)
      ensures Snapshot() == db
    {
      orders, payouts, payments, disputes := db.orders, db.payouts, db.payments, db.disputes;
      requests, refunds, entries := db.requests, db.refunds, db.entries;
    }

    function Snapshot(): Db
      reads this
    {
      Db(orders, payouts, payments, disputes, requests, refunds, entries)
    }

    // -------------------------------------------------------------- the ledger

    /** `_balance_entry`. */
    method BalanceEntry(i: nat, kind: Kind, amount: int, source: string)
      requires i < |payouts|
      modifies this`entries
      ensures entries == AddEntry(old(entries), Entry(i, payouts[i].account, kind, amount, source))
    {
      if amount <= 0 { return; }
      for n := 0 to |entries|
        invariant unchanged(this)
        invariant forall k :: 0 <= k < n ==>
                    !(entries[k].payout == i && entries[k].kind == kind && entries[k].source == source)
      {
        if entries[n].payout == i && entries[n].kind == kind && entries[n].source == source {
          assert entries[n] in entries;
          return;
        }
      }
      entries := entries + [Entry(i, payouts[i].account, kind, amount, source)];
    }

    /** `_available_balance_amount`. */
    method AvailableBalance(account: Account) returns (total: int)
      ensures total == Balance(entries, account)
    {
      total := 0;
      for n := 0 to |entries|
        invariant total == Balance(entries[..n], account)
      {
        assert entries[..n + 1][..n] == entries[..n];
        var e := entries[n];
        if e.account == account { total := total + (if e.kind == Credit then e.amount else -e.amount); }
      }
      assert entries[..|entries|] == entries;
    }

    /** The recoveries booked against a payout so far. */
    method Recovered(i: nat) returns (total: int)
      ensures total == Total(entries, i, RefundRecovery)
    {
      total := 0;
      for n := 0 to |entries|
        invariant total == Total(entries[..n], i, RefundRecovery)
      {
        assert entries[..n + 1][..n] == entries[..n];
        if entries[n].payout == i && entries[n].kind == RefundRecovery { total := total + entries[n].amount; }
      }
      assert entries[..|entries|] == entries;
    }

    /** `assert_seller_balance_conservation`, in one pass over the entries. */
    method AuditBalance(p: Payout, i: nat) returns (ok: bool)
      ensures ok == BalanceAudit(p, entries, i)
    {
      var credits, debits, reversals, recoveries := 0, 0, 0, 0;
      var credit, debit, reversal, recovery := 0, 0, 0, 0;
      for n := 0 to |entries|
        invariant credits == Count(entries[..n], i, Credit) && credit == Total(entries[..n], i, Credit)
        invariant debits == Count(entries[..n], i, PayoutDebit) && debit == Total(entries[..n], i, PayoutDebit)
        invariant reversals == Count(entries[..n], i, RefundReversal)
        invariant reversal == Total(entries[..n], i, RefundReversal)
        invariant recoveries == Count(entries[..n], i, RefundRecovery)
        invariant recovery == Total(entries[..n], i, RefundRecovery)
      {
        assert entries[..n + 1][..n] == entries[..n];
        var e := entries[n];
        if e.payout == i {
          match e.kind {
            case Credit => credits, credit := credits + 1, credit + e.amount;
            case PayoutDebit => debits, debit := debits + 1, debit + e.amount;
            case RefundReversal => reversals, reversal := reversals + 1, reversal + e.amount;
            case RefundRecovery => recoveries, recovery := recoveries + 1, recovery + e.amount;
          }
        }
      }
      assert entries[..|entries|] == entries;
      if credits > 1 { return false; }
      if p.status == PaidOut {
        if debits != 1 || debit != p.net { return false; }
        if reversals != 0 { return false; }
        if recovery > debit { return false; }
        ok := credit == p.net;
      } else {
        if debits != 0 || recoveries != 0 { return false; }
        ok := credit == p.net + reversal;
      }
    }

    // -------------------------------------------------------------- the order

    method CapturePayment(seller: int, i: nat, reference: string) returns (error: Option<Error>)
      modifies this
      ensures Reply(Snapshot(), error) == old(SellerLedger.CapturePayment(Snapshot(), seller, i, reference))
    {
      if !Owned(Snapshot(), seller, i) { return Some(NotFound); }
      if payments[i].Some? { return Some(WrongState); }
      payments := payments[i := Some(Payment(orders[i].total, false))];
      orders := orders[i := orders[i].(status := Paid, paymentRef := Some(reference))];
      payouts := payouts[i := payouts[i].(paymentRef := Some(reference))];
      error := None;
    }

    method MarkPaid(seller: int, i: nat, reference: string, captured: bool) returns (error: Option<Error>)
      modifies this
      ensures Reply(Snapshot(), error) == old(SellerLedger.MarkPaid(Snapshot(), seller, i, reference, captured))
    {
      if !Owned(Snapshot(), seller, i) { return Some(NotFound); }
      if orders[i].status != PendingPayment { return Some(WrongState); }
      if !captured { return Some(NotVerified); }
      var audited := AuditBalance(payouts[i], i);
      if !audited { return Some(BalanceAuditFailed); }
      payments := payments[i := Some(Payment(orders[i].total, false))];
      orders := orders[i := orders[i].(status := Paid, paymentRef := Some(reference))];
      payouts := payouts[i := payouts[i].(paymentRef := Some(reference))];
      error := None;
    }

    method MarkProcessing(seller: int, i: nat) returns (error: Option<Error>)
      modifies this
      ensures Reply(Snapshot(), error) == old(SellerLedger.MarkProcessing(Snapshot(), seller, i))
    {
      if !Owned(Snapshot(), seller, i) { return Some(NotFound); }
      if orders[i].status != Paid { return Some(WrongState); }
      orders := orders[i := orders[i].(status := Processing)];
      error := None;
    }

    method MarkShipped(seller: int, i: nat, inTransit: bool, delivered: bool) returns (error: Option<Error>)
      modifies this
      ensures Reply(Snapshot(), error) == old(SellerLedger.MarkShipped(Snapshot(), seller, i, inTransit, delivered))
    {
      if !Owned(Snapshot(), seller, i) { return Some(NotFound); }
      if orders[i].status !in {Paid, Processing} { return Some(WrongState); }
      if !inTransit && !delivered { return Some(NotVerified); }
      orders := orders[i := orders[i].(status := if delivered then Delivered else Shipped)];
      error := None;
    }

    method MarkDelivered(seller: int, i: nat, delivered: bool) returns (error: Option<Error>)
      modifies this
      ensures Reply(Snapshot(), error) == old(SellerLedger.MarkDelivered(Snapshot(), seller, i, delivered))
    {
      if !Owned(Snapshot(), seller, i) { return Some(NotFound); }
      if !delivered { return Some(NotVerified); }
      if orders[i].status !in {Shipped, Delivered} { return Some(WrongState); }
      orders := orders[i := orders[i].(status := Completed)];
      if payouts[i].status == Held && payouts[i].settlementRef.Some? {
        payouts := payouts[i := payouts[i].(status := Eligible, eligibleAt := true)];
      }
      error := None;
    }

    method Cancel(i: nat) returns (error: Option<Error>)
      modifies this
      ensures Reply(Snapshot(), error) == old(SellerLedger.Cancel(Snapshot(), i))
    {
      if i >= |orders| || i >= |payouts| { return Some(NotFound); }
      if orders[i].status != PendingPayment { return Some(WrongState); }
      orders := orders[i := orders[i].(status := Cancelled)];
      payouts := payouts[i := payouts[i].(status := Reversed)];
      error := None;
    }

    method OpenDispute(i: nat) returns (error: Option<Error>)
      modifies this
      ensures Reply(Snapshot(), error) == old(SellerLedger.OpenDispute(Snapshot(), i))
    {
      if i >= |orders| || i >= |disputes| { return Some(NotFound); }
      if orders[i].status !in {Paid, Processing, Shipped, Delivered, Completed} { return Some(WrongState); }
      if disputes[i].Some? { return Some(WrongState); }
      disputes := disputes[i := Some(Open)];
      orders := orders[i := orders[i].(status := Disputed)];
      error := None;
    }

    method ResolveDispute(i: nat, decision: DisputeStatus) returns (error: Option<Error>)
      modifies this
      ensures Reply(Snapshot(), error) == old(SellerLedger.ResolveDispute(Snapshot(), i, decision))
    {
      if i >= |orders| || i >= |disputes| { return Some(NotFound); }
      if decision == Open || disputes[i] != Some(Open) { return Some(WrongState); }
      disputes := disputes[i := Some(decision)];
      if decision != Resolved && orders[i].status == Disputed {
        orders := orders[i := orders[i].(status := Completed)];
      }
      error := None;
    }

    // -------------------------------------------------------------- settlement and payout

    /** Link the settlement; credit a completed order; then both audits, or nothing at all. */
    method Settle(seller: int, i: nat, settlementRef: string, verified: bool, orderAudit: bool)
      returns (error: Option<Error>)
      modifies this
      ensures Reply(Snapshot(), error)
              == old(SellerLedger.Settle(Snapshot(), seller, i, settlementRef, verified, orderAudit))
    {
      if !Owned(Snapshot(), seller, i) { return Some(NotFound); }
      if orders[i].status !in {Paid, Processing, Shipped, Delivered, Completed} { return Some(WrongState); }
      if orders[i].paymentRef.None? { return Some(ReferenceMissing); }
      if !verified { return Some(NotVerified); }
      if payouts[i].status == PaidOut { return None; }
      hide BalanceAudit, AddEntry;
      var before, savedEntries := payouts, entries;
      payouts := payouts[i := payouts[i].(paymentRef := orders[i].paymentRef, settlementRef := Some(settlementRef))];
      if orders[i].status == Completed && payouts[i].status == Held {
        payouts := payouts[i := payouts[i].(status := Eligible, eligibleAt := true)];
        BalanceEntry(i, Credit, payouts[i].net, "settlement:" + settlementRef);
      }
      var audited := AuditBalance(payouts[i], i);
      if !orderAudit || !audited {
        payouts, entries := before, savedEntries;
        return Some(BalanceAuditFailed);
      }
      error := None;
    }

    method RequestPayout(seller: int, i: nat, payoutRef: string, allowed: bool) returns (error: Option<Error>)
      modifies this
      ensures Reply(Snapshot(), error) == old(SellerLedger.RequestPayout(Snapshot(), seller, i, payoutRef, allowed))
    {
      if !Owned(Snapshot(), seller, i) { return Some(NotFound); }
      if Blocked(orders[i].status) { return Some(BlockedByOrderState); }
      if payouts[i].status != Eligible { return Some(WrongState); }
      if !allowed { return Some(NotVerified); }
      payouts := payouts[i := payouts[i].(status := InProcess, payoutRef := Some(payoutRef))];
      error := None;
    }

    method ReferenceInUse(i: nat, externalRef: string) returns (used: bool)
      ensures used <==> exists k :: 0 <= k < |payouts| && k != i && payouts[k].externalRef == Some(externalRef)
    {
      for n := 0 to |payouts|
        invariant forall k :: 0 <= k < n && k != i ==> payouts[k].externalRef != Some(externalRef)
      {
        if n != i && payouts[n].externalRef == Some(externalRef) { return true; }
      }
      used := false;
    }

    /** Consume the seller's balance for one payout; then both audits, or nothing at all. */
    method MarkPayoutPaid(seller: int, i: nat, externalRef: string, allowed: bool, orderAudit: bool)
      returns (error: Option<Error>)
      modifies this
      ensures Reply(Snapshot(), error)
              == old(SellerLedger.MarkPayoutPaid(Snapshot(), seller, i, externalRef, allowed, orderAudit))
    {
      if !Owned(Snapshot(), seller, i) { return Some(NotFound); }
      if Blocked(orders[i].status) { return Some(BlockedByOrderState); }
      if payouts[i].status == PaidOut {
        if payouts[i].externalRef == Some(externalRef) { return None; }
        return Some(OtherReference);
      }
      if payouts[i].status != InProcess { return Some(WrongState); }
      if payouts[i].paymentRef.None? || payouts[i].settlementRef.None? { return Some(ReferenceMissing); }
      if externalRef == "" { return Some(ReferenceMissing); }
      if !allowed { return Some(NotVerified); }
      hide BalanceAudit, AddEntry, Balance;
      var conflict := ReferenceInUse(i, externalRef);
      if conflict { return Some(ReferenceTaken); }
      var available := AvailableBalance(payouts[i].account);
      if available < payouts[i].net { return Some(InsufficientBalance); }
      var before, savedEntries := payouts, entries;
      BalanceEntry(i, PayoutDebit, payouts[i].net,
                   if payouts[i].payoutRef.Some? then payouts[i].payoutRef.value else externalRef);
      payouts := payouts[i := payouts[i].(status := PaidOut, externalRef := Some(externalRef))];
      var audited := AuditBalance(payouts[i], i);
      if !orderAudit || !audited {
        payouts, entries := before, savedEntries;
        return Some(BalanceAuditFailed);
      }
      error := None;
    }

    // -------------------------------------------------------------- returns and refunds

    method RequestReturn(i: nat) returns (error: Option<Error>)
      modifies this
      ensures Reply(Snapshot(), error) == old(SellerLedger.RequestReturn(Snapshot(), i))
    {
      if i >= |orders| { return Some(NotFound); }
      if orders[i].status !in {Delivered, Completed, Disputed} { return Some(WrongState); }
      requests := requests + [Return(i, Requested, None)];
      error := None;
    }

    method AdvanceReturn(r: nat, to: ReturnStatus) returns (error: Option<Error>)
      modifies this
      ensures Reply(Snapshot(), error) == old(SellerLedger.AdvanceReturn(Snapshot(), r, to))
    {
      if r >= |requests| { return Some(NotFound); }
      if !ReturnMove(requests[r].status, to) { return Some(WrongState); }
      requests := requests[r := requests[r].(status := to)];
      error := None;
    }

    method Refunded(order: nat) returns (total: int)
      ensures total == RefundedTotal(refunds, order)
    {
      total := 0;
      for n := 0 to |refunds|
        invariant total == RefundedTotal(refunds[..n], order)
      {
        assert refunds[..n + 1][..n] == refunds[..n];
        if refunds[n].order == order && refunds[n].providerId.Some? { total := total + refunds[n].amount; }
      }
      assert refunds[..|refunds|] == refunds;
    }

    /** `create_refund`: committed by itself. */
    method CreateRefund(i: nat, reference: string, amount: int, allowed: bool) returns (error: Option<Error>)
      modifies this`refunds
      ensures Reply(Snapshot(), error) == old(SellerLedger.CreateRefund(Snapshot(), i, reference, amount, allowed))
    {
      if i >= |payments| || payments[i].None? { return Some(ReferenceMissing); }
      if !allowed { return Some(NotVerified); }
      if payments[i].value.refunded { return Some(WrongState); }
      if amount <= 0 || amount > payments[i].value.amount { return Some(RefundTooLarge); }
      if FindRefund(refunds, reference) < |refunds| { return Some(ReferenceTaken); }
      var prior := Refunded(i);
      if prior + amount > payments[i].value.amount { return Some(RefundTooLarge); }
      refunds := refunds + [Refund(reference, i, amount, None)];
      error := None;
    }

    /** The first half of an approval, up to the commit of its refund. */
    method BeginApproval(seller: int, r: nat, reference: string, amount: int, allowed: bool)
      returns (error: Option<Error>)
      modifies this`refunds
      ensures Reply(Snapshot(), error)
           == old(SellerLedger.BeginApproval(Snapshot(), seller, r, reference, amount, allowed))
    {
      if r >= |requests| || !Owned(Snapshot(), seller, requests[r].order) { return Some(NotFound); }
      if requests[r].status != Inspected { return Some(WrongState); }
      if orders[requests[r].order].paymentRef.None? { return Some(ReferenceMissing); }
      error := CreateRefund(requests[r].order, reference, amount, allowed);
    }

    /** The second half: the return gets the refund. */
    method Grant(r: nat, reference: string)
      requires r < |requests|
      modifies this`requests
      ensures Snapshot() == old(SellerLedger.Grant(Snapshot(), r, reference))
    {
      requests := requests[r := requests[r].(status := RefundApproved, refundRef := Some(reference))];
    }

    /** Approve the refund of an inspected return, if nothing comes between both commits. */
    method ApproveRefund(seller: int, r: nat, reference: string, amount: int, allowed: bool)
      returns (error: Option<Error>)
      modifies this
      ensures Reply(Snapshot(), error)
           == old(SellerLedger.ApproveRefund(Snapshot(), seller, r, reference, amount, allowed))
    {
      error := BeginApproval(seller, r, reference, amount, allowed);
      if error.None? { Grant(r, reference); }
    }

    /** `complete_refund`: committed by itself. */
    method CompletePaymentRefund(k: nat, providerId: string, allowed: bool) returns (error: Option<Error>)
      requires k < |refunds|
      modifies this`refunds, this`payments
      ensures Reply(Snapshot(), error) == old(SellerLedger.CompletePaymentRefund(Snapshot(), k, providerId, allowed))
    {
      var i := refunds[k].order;
      if refunds[k].providerId.Some? {
        if refunds[k].providerId == Some(providerId) { return None; }
        return Some(OtherReference);
      }
      if providerId == "" || i >= |payments| || payments[i].None? { return Some(ReferenceMissing); }
      if !allowed { return Some(NotVerified); }
      if exists j :: 0 <= j < |refunds| && j != k && refunds[j].providerId == Some(providerId) {
        return Some(ReferenceTaken);
      }
      refunds := refunds[k := refunds[k].(providerId := Some(providerId))];
      var total := Refunded(i);
      if total == payments[i].value.amount { payments := payments[i := Some(payments[i].value.(refunded := true))]; }
      assert payments == old(payments)[i := payments[i]];
      error := None;
    }

    /** The seller's payout and ledger after a completed refund. */
    method ApplyRefund(i: nat, amount: int, reference: string)
      requires i < |payouts| && i < |orders| && i < |payments|
      modifies this`orders, this`payouts, this`entries
      ensures Snapshot() == old(SellerLedger.ApplyRefund(Snapshot(), i, amount, reference))
    {
      hide AddEntry, Total;
      var refunded := payments[i].Some? && payments[i].value.refunded;
      orders := orders[i := orders[i].(status := if refunded then SellerLedger.Refunded else PartiallyRefunded)];
      var p := payouts[i];
      if p.status == Held || p.status == Eligible {
        if amount >= p.gross {
          payouts := payouts[i := p.(gross := p.sellerFunded + p.fee, net := 0, status := Reversed)];
        } else {
          var gross := p.gross - amount;
          payouts := payouts[i := p.(gross := gross, net := Max0(gross - p.sellerFunded - p.fee))];
        }
        if p.eligibleAt { BalanceEntry(i, RefundReversal, p.net - payouts[i].net, reference); }
      } else if p.status == PaidOut {
        var recovered := Recovered(i);
        BalanceEntry(i, RefundRecovery, Min(amount, Max0(p.net - recovered)), reference);
      }
    }

    /** The second half of a completion: the return, the payout and the ledger, or no change. */
    method Book(r: nat, k: nat) returns (error: Option<Error>)
      requires r < |requests| && k < |refunds|
      requires requests[r].order < |payouts| && requests[r].order < |orders| && requests[r].order < |payments|
      modifies this
      ensures Reply(Snapshot(), error) == old(SellerLedger.Book(Snapshot(), r, k))
    {
      hide SellerLedger.ApplyRefund, RefundAudit, PayoutConstraint;
      var before := Snapshot();
      var i, amount := requests[r].order, refunds[k].amount;
      ApplyRefund(i, amount, refunds[k].reference);
      requests := requests[r := requests[r].(status := RefundedReturn)];
      error := None;
      if !PayoutConstraint(payouts[i]) {
        error := Some(ConstraintViolation);
      } else if !RefundAudit(orders[i], payouts[i], entries, i, amount) {
        error := Some(BalanceAuditFailed);
      }
      if error.Some? {
        orders, payouts, entries, requests := before.orders, before.payouts, before.entries, before.requests;
      }
    }

    /** Complete the refund of a return, if nothing comes between both commits: first the payment refund,
        which is kept whatever follows, then the return, the payout and the ledger. */
    method CompleteReturnRefund(seller: int, r: nat, providerId: string, allowed: bool) returns (error: Option<Error>)
      modifies this
      ensures Reply(Snapshot(), error)
              == old(SellerLedger.CompleteReturnRefund(Snapshot(), seller, r, providerId, allowed))
    {
      hide SellerLedger.Book, SellerLedger.CompletePaymentRefund;
      if r >= |requests| || !Owned(Snapshot(), seller, requests[r].order) || requests[r].refundRef.None? {
        return Some(NotFound);
      }
      var x := requests[r];
      var k := FindRefund(refunds, x.refundRef.value);
      if k >= |refunds| { return Some(NotFound); }
      if x.status == RefundedReturn {
        if refunds[k].providerId == Some(providerId) { return None; }
        return Some(OtherReference);
      }
      if x.status != RefundApproved { return Some(WrongState); }
      error := CompletePaymentRefund(k, providerId, allowed);
      if error.Some? { return; }
      error := Book(r, k);
    }
  }
}
