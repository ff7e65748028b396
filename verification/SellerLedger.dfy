/** The seller ledger: payouts and the signed balance entries they leave behind.

    Tables are sequences; the order, its payout, its payment and its dispute share an index. What
    other components decide (a verified settlement, a provider gate, the order audit) comes in as a
    boolean of the operation. */
module SellerLedger {
  import opened Outcomes
  import opened Sums

  datatype OrderStatus =
    | PendingPayment | Paid | Processing | Shipped | Delivered | Completed
    | Cancelled | PartiallyRefunded | Refunded | Disputed

  datatype PayoutStatus = Held | Eligible | InProcess | PaidOut | Reversed

  datatype Account = Account(seller: int, market: int, currency: string)

  datatype Order = Order(account: Account, status: OrderStatus, total: int, paymentRef: Option<string>)

  datatype Payout = Payout(
    account: Account, status: PayoutStatus, gross: int, sellerFunded: int, fee: int, net: int,
    eligibleAt: bool, paymentRef: Option<string>, settlementRef: Option<string>,
    payoutRef: Option<string>, externalRef: Option<string>)

  datatype Kind = Credit | PayoutDebit | RefundReversal | RefundRecovery

  datatype Entry = Entry(payout: nat, account: Account, kind: Kind, amount: int, source: string)

  datatype Payment = Payment(amount: int, refunded: bool)

  datatype DisputeStatus = Open | Resolved | Rejected | Withdrawn

  datatype ReturnStatus =
    | Requested | Approved | RejectedReturn | Pickup | Received | Inspected
    | RefundApproved | RefundedReturn | CancelledReturn

  datatype Return = Return(order: nat, status: ReturnStatus, refundRef: Option<string>)

  datatype Refund = Refund(reference: string, order: nat, amount: int, providerId: Option<string>)

  datatype Db = Db(
    orders: seq<Order>, payouts: seq<Payout>, payments: seq<Option<Payment>>, disputes: seq<Option<DisputeStatus>>,
    requests: seq<Return>, refunds: seq<Refund>, entries: seq<Entry>)

  datatype Error =
    | NotFound
    | WrongState
    | NotVerified
    | BalanceAuditFailed
    | BlockedByOrderState
    | OtherReference
    | ReferenceMissing
    | ReferenceTaken
    | InsufficientBalance
    | RefundTooLarge
    | ConstraintViolation

  /** The rows after an operation, and why it was rejected if it was. */
  datatype Reply = Reply(db: Db, error: Option<Error>)

  function Accept(db: Db): Reply { Reply(db, None) }

  function Reject(db: Db, e: Error): Reply { Reply(db, Some(e)) }

  // ---------------------------------------------------------------- balance entries

  function Signed(e: Entry): int { if e.kind == Credit then e.amount else -e.amount }

  /** `_available_balance_amount` and `seller_balance`. */
  function Balance(entries: seq<Entry>, account: Account): int {
    if entries == [] then 0
    else
      var e := entries[|entries| - 1];
      Balance(entries[..|entries| - 1], account) + if e.account == account then Signed(e) else 0
  }

  function Total(entries: seq<Entry>, payout: nat, kind: Kind): int {
    if entries == [] then 0
    else
      var e := entries[|entries| - 1];
      Total(entries[..|entries| - 1], payout, kind) + if e.payout == payout && e.kind == kind then e.amount else 0
  }

  function Count(entries: seq<Entry>, payout: nat, kind: Kind): nat {
    if entries == [] then 0
    else
      var e := entries[|entries| - 1];
      Count(entries[..|entries| - 1], payout, kind) + if e.payout == payout && e.kind == kind then 1 else 0
  }

  predicate HasEntry(entries: seq<Entry>, payout: nat, kind: Kind, source: string) {
    exists e :: e in entries && e.payout == payout && e.kind == kind && e.source == source
  }

  /** `_balance_entry`: nothing for a non-positive amount, and once per payout, kind and source. */
  function AddEntry(entries: seq<Entry>, e: Entry): seq<Entry> {
    if e.amount <= 0 || HasEntry(entries, e.payout, e.kind, e.source) then entries else entries + [e]
  }

  function EntryFor(db: Db, i: nat, kind: Kind, amount: int, source: string): Entry
    requires i < |db.payouts|
  {
    Entry(i, db.payouts[i].account, kind, amount, source)
  }

  /** `assert_seller_balance_conservation`. */
  predicate BalanceAudit(p: Payout, entries: seq<Entry>, i: nat) {
    var credit, debit := Total(entries, i, Credit), Total(entries, i, PayoutDebit);
    var reversal, recovery := Total(entries, i, RefundReversal), Total(entries, i, RefundRecovery);
    && Count(entries, i, Credit) <= 1
    && if p.status == PaidOut then
         && Count(entries, i, PayoutDebit) == 1 && debit == p.net
         && Count(entries, i, RefundReversal) == 0
         && recovery <= debit
         && credit == p.net
       else
         && Count(entries, i, PayoutDebit) == 0 && Count(entries, i, RefundRecovery) == 0
         && credit == p.net + reversal
  }

  /** The CHECK constraint on a payout row. */
  predicate PayoutConstraint(p: Payout) {
    p.gross >= p.fee && p.sellerFunded >= 0 && p.net == p.gross - p.sellerFunded - p.fee
  }

  // ---------------------------------------------------------------- order life cycle

  predicate Owned(db: Db, seller: int, i: nat) {
    i < |db.orders| && i < |db.payouts| && i < |db.payments| && i < |db.disputes|
    && db.orders[i].account.seller == seller
  }

  function SetStatus(db: Db, i: nat, s: OrderStatus): Db
    requires i < |db.orders|
  {
    db.(orders := db.orders[i := db.orders[i].(status := s)])
  }

  /** One order of a captured payment session. */
  function CapturePayment(db: Db, seller: int, i: nat, reference: string): Reply {
    if !Owned(db, seller, i) then Reject(db, NotFound)
    else if db.payments[i].Some? then Reject(db, WrongState)
    else Accept(db.(
      orders := db.orders[i := db.orders[i].(status := Paid, paymentRef := Some(reference))],
      payouts := db.payouts[i := db.payouts[i].(paymentRef := Some(reference))],
      payments := db.payments[i := Some(Payment(db.orders[i].total, false))]))
  }

  /** `mark_paid`, which ends in the balance audit. */
  function MarkPaid(db: Db, seller: int, i: nat, reference: string, captured: bool): Reply {
    if !Owned(db, seller, i) then Reject(db, NotFound)
    else if db.orders[i].status != PendingPayment then Reject(db, WrongState)
    else if !captured then Reject(db, NotVerified)
    else if !BalanceAudit(db.payouts[i], db.entries, i) then Reject(db, BalanceAuditFailed)
    else Accept(db.(
      orders := db.orders[i := db.orders[i].(status := Paid, paymentRef := Some(reference))],
      payouts := db.payouts[i := db.payouts[i].(paymentRef := Some(reference))],
      payments := db.payments[i := Some(Payment(db.orders[i].total, false))]))
  }

  function MarkProcessing(db: Db, seller: int, i: nat): Reply {
    if !Owned(db, seller, i) then Reject(db, NotFound)
    else if db.orders[i].status != Paid then Reject(db, WrongState)
    else Accept(SetStatus(db, i, Processing))
  }

  function MarkShipped(db: Db, seller: int, i: nat, inTransit: bool, delivered: bool): Reply {
    if !Owned(db, seller, i) then Reject(db, NotFound)
    else if db.orders[i].status !in {Paid, Processing} then Reject(db, WrongState)
    else if !inTransit && !delivered then Reject(db, NotVerified)
    else Accept(SetStatus(db, i, if delivered then Delivered else Shipped))
  }

  /** `mark_delivered`: completes the order; a held payout with a settlement becomes eligible, and
      no credit is written here. */
  function MarkDelivered(db: Db, seller: int, i: nat, delivered: bool): Reply {
    if !Owned(db, seller, i) then Reject(db, NotFound)
    else if !delivered then Reject(db, NotVerified)
    else if db.orders[i].status !in {Shipped, Delivered} then Reject(db, WrongState)
    else
      var p := db.payouts[i];
      var p' := if p.status == Held && p.settlementRef.Some? then p.(status := Eligible, eligibleAt := true) else p;
      Accept(SetStatus(db, i, Completed).(payouts := db.payouts[i := p']))
  }

  function Cancel(db: Db, i: nat): Reply {
    if !(i < |db.orders| && i < |db.payouts|) then Reject(db, NotFound)
    else if db.orders[i].status != PendingPayment then Reject(db, WrongState)
    else Accept(SetStatus(db, i, Cancelled).(payouts := db.payouts[i := db.payouts[i].(status := Reversed)]))
  }

  /** `settle_order_payment`: links the settlement; a held payout of a completed order is credited;
      then the order audit and the balance audit decide. */
  function Settle(db: Db, seller: int, i: nat, settlementRef: string, verified: bool, orderAudit: bool): Reply {
    if !Owned(db, seller, i) then Reject(db, NotFound)
    else if db.orders[i].status !in {Paid, Processing, Shipped, Delivered, Completed} then Reject(db, WrongState)
    else if db.orders[i].paymentRef.None? then Reject(db, ReferenceMissing)
    else if !verified then Reject(db, NotVerified)
    else if db.payouts[i].status == PaidOut then Accept(db)
    else
      var p := db.payouts[i].(paymentRef := db.orders[i].paymentRef, settlementRef := Some(settlementRef));
      var credited := db.orders[i].status == Completed && p.status == Held;
      var p' := if credited then p.(status := Eligible, eligibleAt := true) else p;
      var entries := if credited
          then AddEntry(db.entries, EntryFor(db, i, Credit, p.net, "settlement:" + settlementRef)) else db.entries;
      if !orderAudit || !BalanceAudit(p', entries, i) then Reject(db, BalanceAuditFailed)
      else Accept(db.(payouts := db.payouts[i := p'], entries := entries))
  }

  predicate Blocked(s: OrderStatus) { s in {Refunded, PartiallyRefunded, Disputed} }

  function RequestPayout(db: Db, seller: int, i: nat, payoutRef: string, allowed: bool): Reply {
    if !Owned(db, seller, i) then Reject(db, NotFound)
    else if Blocked(db.orders[i].status) then Reject(db, BlockedByOrderState)
    else if db.payouts[i].status != Eligible then Reject(db, WrongState)
    else if !allowed then Reject(db, NotVerified)
    else Accept(db.(payouts := db.payouts[i := db.payouts[i].(status := InProcess, payoutRef := Some(payoutRef))]))
  }

  /** `mark_payout_paid`: consumes the seller's available balance. */
  function MarkPayoutPaid(db: Db, seller: int, i: nat, externalRef: string, allowed: bool, orderAudit: bool): Reply {
    if !Owned(db, seller, i) then Reject(db, NotFound)
    else if Blocked(db.orders[i].status) then Reject(db, BlockedByOrderState)
    else
      var p := db.payouts[i];
      if p.status == PaidOut then
        if p.externalRef == Some(externalRef) then Accept(db) else Reject(db, OtherReference)
      else if p.status != InProcess then Reject(db, WrongState)
      else if p.paymentRef.None? || p.settlementRef.None? || externalRef == "" then Reject(db, ReferenceMissing)
      else if !allowed then Reject(db, NotVerified)
      else if exists k :: 0 <= k < |db.payouts| && k != i && db.payouts[k].externalRef == Some(externalRef) then
        Reject(db, ReferenceTaken)
      else if Balance(db.entries, p.account) < p.net then Reject(db, InsufficientBalance)
      else
        var source := if p.payoutRef.Some? then p.payoutRef.value else externalRef;
        var entries := AddEntry(db.entries, EntryFor(db, i, PayoutDebit, p.net, source));
        var p' := p.(status := PaidOut, externalRef := Some(externalRef));
        if !orderAudit || !BalanceAudit(p', entries, i) then Reject(db, BalanceAuditFailed)
        else Accept(db.(payouts := db.payouts[i := p'], entries := entries))
  }

  function OpenDispute(db: Db, i: nat): Reply {
    if !(i < |db.orders| && i < |db.disputes|) then Reject(db, NotFound)
    else if db.orders[i].status !in {Paid, Processing, Shipped, Delivered, Completed} || db.disputes[i].Some? then
      Reject(db, WrongState)
    else Accept(SetStatus(db, i, Disputed).(disputes := db.disputes[i := Some(Open)]))
  }

  /** `resolve_dispute`: a decision other than "resolved" puts a disputed order to completed. */
  function ResolveDispute(db: Db, i: nat, decision: DisputeStatus): Reply {
    if !(i < |db.orders| && i < |db.disputes|) then Reject(db, NotFound)
    else if db.disputes[i] != Some(Open) || decision == Open then Reject(db, WrongState)
    else
      var s := if decision != Resolved && db.orders[i].status == Disputed then Completed else db.orders[i].status;
      Accept(SetStatus(db, i, s).(disputes := db.disputes[i := Some(decision)]))
  }

  // ---------------------------------------------------------------- returns and refunds

  function RequestReturn(db: Db, i: nat): Reply {
    if i >= |db.orders| then Reject(db, NotFound)
    else if db.orders[i].status !in {Delivered, Completed, Disputed} then Reject(db, WrongState)
    else Accept(db.(requests := db.requests + [Return(i, Requested, None)]))
  }

  /** The moves of `review_return` and `advance_return`. */
  predicate ReturnMove(from: ReturnStatus, to: ReturnStatus) {
    match from
    case Requested => to in {Approved, RejectedReturn}
    case Approved => to in {Pickup, CancelledReturn}
    case Pickup => to in {Received, CancelledReturn}
    case Received => to == Inspected
    case Inspected => to == RefundApproved
    case RefundApproved => to == RefundedReturn
    case _ => false
  }

  function AdvanceReturn(db: Db, r: nat, to: ReturnStatus): Reply {
    if r >= |db.requests| then Reject(db, NotFound)
    else if !ReturnMove(db.requests[r].status, to) then Reject(db, WrongState)
    else Accept(db.(requests := db.requests[r := db.requests[r].(status := to)]))
  }

  function FindRefund(refunds: seq<Refund>, reference: string): (k: nat)
    ensures k <= |refunds|
    ensures k < |refunds| ==> refunds[k].reference == reference
    ensures forall j :: 0 <= j < k ==> refunds[j].reference != reference
  {
    if refunds == [] then 0
    else if refunds[0].reference == reference then 0
    else 1 + FindRefund(refunds[1..], reference)
  }

  /** What has been refunded to the buyer of an order so far. */
  function RefundedTotal(refunds: seq<Refund>, order: nat): int {
    if refunds == [] then 0
    else
      var r := refunds[|refunds| - 1];
      RefundedTotal(refunds[..|refunds| - 1], order) + if r.order == order && r.providerId.Some? then r.amount else 0
  }

  /** `create_refund` of the payment engine; it commits on its own. */
  function CreateRefund(db: Db, i: nat, reference: string, amount: int, allowed: bool): (reply: Reply)
    ensures reply.db == db.(refunds := reply.db.refunds) && |db.refunds| <= |reply.db.refunds|
    ensures reply.error.Some? ==> reply.db == db
  {
    if i >= |db.payments| || db.payments[i].None? then Reject(db, ReferenceMissing)
    else if !allowed then Reject(db, NotVerified)
    else if db.payments[i].value.refunded then Reject(db, WrongState)
    else if amount <= 0 || amount > db.payments[i].value.amount then Reject(db, RefundTooLarge)
    else if FindRefund(db.refunds, reference) < |db.refunds| then Reject(db, ReferenceTaken)
    else if RefundedTotal(db.refunds, i) + amount > db.payments[i].value.amount then Reject(db, RefundTooLarge)
    else Accept(db.(refunds := db.refunds + [Refund(reference, i, amount, None)]))
  }

  /** The first half of `approve_refund`, up to the commit of the refund. */
  function BeginApproval(db: Db, seller: int, r: nat, reference: string, amount: int, allowed: bool): Reply {
    if r >= |db.requests| || !Owned(db, seller, db.requests[r].order) then Reject(db, NotFound)
    else if db.requests[r].status != Inspected then Reject(db, WrongState)
    else if db.orders[db.requests[r].order].paymentRef.None? then Reject(db, ReferenceMissing)
    else CreateRefund(db, db.requests[r].order, reference, amount, allowed)
  }

  /** The second half: the return gets the refund, whatever became of it in between. */
  function Grant(db: Db, r: nat, reference: string): Db
    requires r < |db.requests|
  {
    db.(requests := db.requests[r := db.requests[r].(status := RefundApproved, refundRef := Some(reference))])
  }

  /** `approve_refund`, both halves: the return gets a refund of its own. */
  function ApproveRefund(db: Db, seller: int, r: nat, reference: string, amount: int, allowed: bool): Reply {
    var first := BeginApproval(db, seller, r, reference, amount, allowed);
    if first.error.Some? then first else Accept(Grant(first.db, r, reference))
  }

  /** `complete_refund` of the payment engine; it commits on its own. */
  function CompletePaymentRefund(db: Db, k: nat, providerId: string, allowed: bool): (reply: Reply)
    requires k < |db.refunds|
    ensures |reply.db.refunds| == |db.refunds| && reply.db.refunds[k].amount == db.refunds[k].amount
    ensures reply.db.refunds[k].reference == db.refunds[k].reference
    ensures |reply.db.payments| == |db.payments|
    ensures reply.db == db.(refunds := reply.db.refunds, payments := reply.db.payments)
    ensures reply.error.Some? ==> reply.db == db
  {
    var f := db.refunds[k];
    if f.providerId.Some? then
      if f.providerId == Some(providerId) then Accept(db) else Reject(db, OtherReference)
    else if providerId == "" || f.order >= |db.payments| || db.payments[f.order].None? then Reject(db, ReferenceMissing)
    else if !allowed then Reject(db, NotVerified)
    else if exists j :: 0 <= j < |db.refunds| && j != k && db.refunds[j].providerId == Some(providerId) then
      Reject(db, ReferenceTaken)
    else
      var refunds := db.refunds[k := f.(providerId := Some(providerId))];
      var p := db.payments[f.order].value;
      var p' := if RefundedTotal(refunds, f.order) == p.amount then p.(refunded := true) else p;
      Accept(db.(refunds := refunds, payments := db.payments[f.order := Some(p')]))
  }

  function Max0(x: int): int { if x < 0 then 0 else x }

  function Min(a: int, b: int): int { if a < b then a else b }

  /** A held or eligible payout after a refund. */
  function ReducePayout(p: Payout, amount: int): Payout {
    if amount >= p.gross then p.(gross := p.sellerFunded + p.fee, net := 0, status := Reversed)
    else p.(gross := p.gross - amount, net := Max0(p.gross - amount - p.sellerFunded - p.fee))
  }

  /** The seller-side effect of a completed refund: a reversal before the payout was paid, a
      recovery (never beyond the paid proceeds) afterwards. */
  function ApplyRefund(db: Db, i: nat, amount: int, reference: string): (after: Db)
    requires i < |db.payouts| && i < |db.orders| && i < |db.payments|
    ensures |after.payouts| == |db.payouts| && |after.orders| == |db.orders|
    ensures after == db.(orders := after.orders, payouts := after.payouts, entries := after.entries)
  {
    var p := db.payouts[i];
    var refunded := db.payments[i].Some? && db.payments[i].value.refunded;
    var db1 := SetStatus(db, i, if refunded then Refunded else PartiallyRefunded);
    if p.status == Held || p.status == Eligible then
      var p' := ReducePayout(p, amount);
      var entries := if p.eligibleAt
          then AddEntry(db.entries, EntryFor(db, i, RefundReversal, p.net - p'.net, reference)) else db.entries;
      db1.(payouts := db.payouts[i := p'], entries := entries)
    else if p.status == PaidOut then
      var exposure := Max0(p.net - Total(db.entries, i, RefundRecovery));
      db1.(entries := AddEntry(db.entries, EntryFor(db, i, RefundRecovery, Min(amount, exposure), reference)))
    else db1
  }

  /** `assert_refund_invariants`. */
  predicate RefundAudit(o: Order, p: Payout, entries: seq<Entry>, i: nat, amount: int) {
    && 0 < amount <= o.total
    && p.net == Max0(p.gross - p.sellerFunded - p.fee)
    && (p.status == Reversed ==> p.net == 0)
    && Total(entries, i, RefundRecovery) >= 0
    && (p.status == PaidOut ==> Total(entries, i, RefundRecovery) <= p.net)
  }

  /** The return waits for the refund at k to be completed. */
  predicate Waiting(db: Db, seller: int, r: nat, k: nat) {
    && r < |db.requests| && Owned(db, seller, db.requests[r].order) && db.requests[r].refundRef.Some?
    && db.requests[r].status == RefundApproved
    && k == FindRefund(db.refunds, db.requests[r].refundRef.value) < |db.refunds|
  }

  /** What the second half of `complete_return_refund` writes for the refund at k. */
  function Booked(db: Db, r: nat, k: nat): Db
    requires r < |db.requests| && k < |db.refunds|
    requires db.requests[r].order < |db.payouts| && db.requests[r].order < |db.orders|
    requires db.requests[r].order < |db.payments|
  {
    ApplyRefund(db, db.requests[r].order, db.refunds[k].amount, db.refunds[k].reference)
      .(requests := db.requests[r := db.requests[r].(status := RefundedReturn)])
  }

  /** The second half: the return, the payout and the ledger, under the row constraint and the audit. */
  function Book(db: Db, r: nat, k: nat): Reply
    requires r < |db.requests| && k < |db.refunds|
    requires db.requests[r].order < |db.payouts| && db.requests[r].order < |db.orders|
    requires db.requests[r].order < |db.payments|
  {
    var i, after := db.requests[r].order, Booked(db, r, k);
    if !PayoutConstraint(after.payouts[i]) then Reject(db, ConstraintViolation)
    else if !RefundAudit(after.orders[i], after.payouts[i], after.entries, i, db.refunds[k].amount) then
      Reject(db, BalanceAuditFailed)
    else Accept(after)
  }

  /** `complete_return_refund`, both halves. A failure after the payment refund was committed leaves that
      commit in place, so that the call can be retried. */
  function CompleteReturnRefund(db: Db, seller: int, r: nat, providerId: string, allowed: bool): Reply {
    if r >= |db.requests| || !Owned(db, seller, db.requests[r].order) || db.requests[r].refundRef.None? then
      Reject(db, NotFound)
    else
      var x := db.requests[r];
      var k := FindRefund(db.refunds, x.refundRef.value);
      if k >= |db.refunds| then Reject(db, NotFound)
      else if x.status == RefundedReturn then
        if db.refunds[k].providerId == Some(providerId) then Accept(db) else Reject(db, OtherReference)
      else if x.status != RefundApproved then Reject(db, WrongState)
      else
        var first := CompletePaymentRefund(db, k, providerId, allowed);
        if first.error.Some? then first else Book(first.db, r, k)
  }

  // ---------------------------------------------------------------- runs

  datatype Op =
    | OpCapture(seller: int, i: nat, reference: string)
    | OpMarkPaid(seller: int, i: nat, reference: string, captured: bool)
    | OpProcessing(seller: int, i: nat)
    | OpShipped(seller: int, i: nat, inTransit: bool, delivered: bool)
    | OpDelivered(seller: int, i: nat, delivered: bool)
    | OpCancel(i: nat)
    | OpSettle(seller: int, i: nat, settlementRef: string, verified: bool, orderAudit: bool)
    | OpRequestPayout(seller: int, i: nat, payoutRef: string, allowed: bool)
    | OpPayoutPaid(seller: int, i: nat, externalRef: string, allowed: bool, orderAudit: bool)
    | OpOpenDispute(i: nat)
    | OpResolveDispute(i: nat, decision: DisputeStatus)
    | OpRequestReturn(i: nat)
    | OpAdvanceReturn(r: nat, to: ReturnStatus)
    | OpApproveRefund(seller: int, r: nat, reference: string, amount: int, allowed: bool)
    | OpCompleteRefund(seller: int, r: nat, providerId: string, allowed: bool)
    | OpCreateRefund(i: nat, reference: string, amount: int, allowed: bool)
    | OpPaymentRefund(k: nat, providerId: string, allowed: bool)

  function Perform(db: Db, op: Op): Reply {
    match op
    case OpCapture(seller, i, reference) => CapturePayment(db, seller, i, reference)
    case OpMarkPaid(seller, i, reference, captured) => MarkPaid(db, seller, i, reference, captured)
    case OpProcessing(seller, i) => MarkProcessing(db, seller, i)
    case OpShipped(seller, i, inTransit, delivered) => MarkShipped(db, seller, i, inTransit, delivered)
    case OpDelivered(seller, i, delivered) => MarkDelivered(db, seller, i, delivered)
    case OpCancel(i) => Cancel(db, i)
    case OpSettle(seller, i, settlementRef, verified, orderAudit) =>
      Settle(db, seller, i, settlementRef, verified, orderAudit)
    case OpRequestPayout(seller, i, payoutRef, allowed) => RequestPayout(db, seller, i, payoutRef, allowed)
    case OpPayoutPaid(seller, i, externalRef, allowed, orderAudit) =>
      MarkPayoutPaid(db, seller, i, externalRef, allowed, orderAudit)
    case OpOpenDispute(i) => OpenDispute(db, i)
    case OpResolveDispute(i, decision) => ResolveDispute(db, i, decision)
    case OpRequestReturn(i) => RequestReturn(db, i)
    case OpAdvanceReturn(r, to) => AdvanceReturn(db, r, to)
    case OpApproveRefund(seller, r, reference, amount, allowed) =>
      ApproveRefund(db, seller, r, reference, amount, allowed)
    case OpCompleteRefund(seller, r, providerId, allowed) => CompleteReturnRefund(db, seller, r, providerId, allowed)
    case OpCreateRefund(i, reference, amount, allowed) => CreateRefund(db, i, reference, amount, allowed)
    case OpPaymentRefund(k, providerId, allowed) =>
      if k < |db.refunds| then CompletePaymentRefund(db, k, providerId, allowed) else Reject(db, NotFound)
  }

  function Run(db: Db, ops: seq<Op>): Db {
    if ops == [] then db else Perform(Run(db, ops[..|ops| - 1]), ops[|ops| - 1]).db
  }

  /** What checkout leaves: pending orders, held payouts, an empty ledger. */
  ghost predicate Start(db: Db) {
    && |db.orders| == |db.payouts| == |db.payments| == |db.disputes|
    && db.requests == [] && db.refunds == [] && db.entries == []
    && forall i :: 0 <= i < |db.orders| ==>
         && db.orders[i].status == PendingPayment && db.payments[i].None? && db.disputes[i].None?
         && var p := db.payouts[i];
            p.status == Held && !p.eligibleAt && p.settlementRef.None? && p.externalRef.None? && p.net >= 0
            && p.account == db.orders[i].account && PayoutConstraint(p)
  }
}
