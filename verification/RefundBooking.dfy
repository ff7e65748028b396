/** What a refund takes from its seller: the net of a payout that is still open, the balance of an account
    that was already paid. Everything is said of nets, balances and refund amounts. */
module RefundBooking {
  import opened Outcomes
  import opened RefundRetry
  import opened SellerBalance
  import opened SellerInvariant
  import opened SellerLedger

  // ---------------------------------------------------------------- one booking

  /** The operation completes the refund at k for a return of order i that waits for it. */
  predicate Books(db: Db, op: Op, i: nat, k: nat) {
    && op.OpCompleteRefund? && Waiting(db, op.seller, op.r, k) && db.requests[op.r].order == i
    && Perform(db, op).error.None?
  }

  /** What a refund takes out of the account behind a payout: as much as there is left to take. */
  function Taken(p: Payout, recovered: int, amount: int): int {
    match p.status
    case PaidOut => if amount <= p.net - recovered then amount else p.net - recovered
    case Eligible => if amount < p.gross then amount else p.net
    case _ => 0
  }

  /** The payout after the refund: an open one gives up the amount, or all of its net and is reversed. */
  function LeftOver(p: Payout, amount: int): Payout {
    if !IsOpen(p) then p
    else if amount < p.gross then p.(gross := p.gross - amount, net := p.net - amount)
    else p.(gross := p.gross - p.net, net := 0, status := Reversed)
  }

  /** A booking succeeds on the state that the payment refund left. */
  lemma BookingIsApplied(db: Db, op: Op, i: nat, k: nat)
    requires Inv(db) && RefundsInv(db) && Books(db, op, i, k)
    ensures var mid, after := CompletePaymentRefund(db, k, op.providerId, op.allowed).db, Perform(db, op).db;
            && Inv(mid) && i < |mid.orders| == |mid.payouts| == |mid.payments|
            && mid.payouts == db.payouts && mid.entries == db.entries && mid.orders == db.orders
            && 0 < db.refunds[k].amount && PayoutConstraint(db.payouts[i]) && db.payouts[i].net >= 0
            && after == CloseRequest(ApplyRefund(mid, i, db.refunds[k].amount, db.refunds[k].reference), op.r)
            && PayoutConstraint(after.payouts[i])
  {
    CompletionIsPerformed(db, op);
    PaidOutToBuyer(db, op.r, op.providerId, op.allowed, k);
    hide Inv, RefundsInv, ApplyRefund, CompletePaymentRefund, FindRefund, RefundAudit, PayoutConstraint, Perform;
  }

  /** The entry of a refund is new: nothing in the ledger names it yet. */
  lemma RefundIsNew(db: Db, r: nat, i: nat, kind: Kind)
    requires Inv(db) && r < |db.requests| && db.requests[r].status == RefundApproved && db.requests[r].refundRef.Some?
    requires kind == RefundRecovery || kind == RefundReversal
    ensures !HasEntry(db.entries, i, kind, db.requests[r].refundRef.value)
  {
    hide LedgerInv, SourcesInv, Known;
    assert RequestInv(db.requests[r], |db.orders|, db.refunds, db.entries);
  }

  /** The payout that a booking leaves. */
  lemma LeftOverIsReduced(p: Payout, amount: int)
    requires PayoutConstraint(p) && p.net >= 0 && amount > 0
    requires IsOpen(p) ==> PayoutConstraint(ReducePayout(p, amount))
    ensures (if IsOpen(p) then ReducePayout(p, amount) else p) == LeftOver(p, amount)
    ensures IsOpen(p) ==> p.net - ReducePayout(p, amount).net == if amount < p.gross then amount else p.net
  {
  }

  /** What the effect of a refund adds to the ledger: one entry of what is taken, or nothing. */
  lemma AppliedEntries(db: Db, i: nat, amount: int, reference: string)
    requires i < |db.orders| && i < |db.payouts| && i < |db.payments| && amount > 0
    requires RowInv(db.orders[i], db.payouts[i], db.entries, i)
    requires !HasEntry(db.entries, i, RefundRecovery, reference) && !HasEntry(db.entries, i, RefundReversal, reference)
    requires PayoutConstraint(ApplyRefund(db, i, amount, reference).payouts[i])
    ensures var p, after := db.payouts[i], ApplyRefund(db, i, amount, reference);
            var taken := Taken(p, Total(db.entries, i, RefundRecovery), amount);
            after.entries == if taken <= 0 then db.entries
              else db.entries + [EntryFor(db, i, if p.status == PaidOut then RefundRecovery else RefundReversal, taken,
                                          reference)]
  {
    hide HasEntry, Total, Count;
    var p := db.payouts[i];
    if IsOpen(p) {
      LeftOverIsReduced(p, amount);
      hide ReducePayout;
    }
  }

  /** The status that a refund gives to its order: refunded once the payment is. */
  lemma AppliedOrder(db: Db, i: nat, amount: int, reference: string)
    requires i < |db.payouts| && i < |db.orders| && i < |db.payments|
    ensures ApplyRefund(db, i, amount, reference).orders
            == db.orders[i := db.orders[i].(status := if db.payments[i].Some? && db.payments[i].value.refunded
                                            then Refunded else PartiallyRefunded)]
  {
    hide AddEntry, Total, ReducePayout;
  }

  /** An entry that takes its amount from its account. */
  lemma TakenEntry(entries: seq<Entry>, e: Entry, account: Account)
    requires e.kind != Credit && e.amount >= 0
    ensures var after := if e.amount <= 0 then entries else entries + [e];
            && Balance(after, account) == Balance(entries, account) - (if account == e.account then e.amount else 0)
            && forall j: nat, kind: Kind ::
                 Total(after, j, kind)
                 == Total(entries, j, kind) + (if j == e.payout && kind == e.kind then e.amount else 0)
  {
    BalanceAdded(entries, e, account);
    forall j: nat, kind: Kind
      ensures Total(entries + [e], j, kind)
              == Total(entries, j, kind) + (if j == e.payout && kind == e.kind then e.amount else 0)
    {
      EntryAdded(entries, e, j, kind);
    }
    hide Balance, Total;
  }

  /** Main result for one call: the refund takes its amount from the net of an open payout and from the balance
      of a credited or paid one, never more than there is; nothing else in the ledger moves. */
  lemma BookingTakes(db: Db, op: Op, i: nat, k: nat, account: Account)
    requires Inv(db) && RefundsInv(db) && Books(db, op, i, k)
    ensures i < |db.payouts|
    ensures var after, p, a := Perform(db, op).db, db.payouts[i], db.refunds[k].amount;
            var taken := Taken(p, Total(db.entries, i, RefundRecovery), a);
            && taken >= 0 && after.payouts == db.payouts[i := LeftOver(p, a)]
            && Balance(after.entries, account)
               == Balance(db.entries, account) - (if account == p.account then taken else 0)
            && forall j: nat, kind: Kind ::
                 Total(after.entries, j, kind) == Total(db.entries, j, kind)
                   + (if j == i && kind == (if p.status == PaidOut then RefundRecovery else RefundReversal)
                      then taken else 0)
  {
    BookingIsApplied(db, op, i, k);
    RefundIsNew(db, op.r, i, RefundRecovery);
    RefundIsNew(db, op.r, i, RefundReversal);
    var mid, p, a := CompletePaymentRefund(db, k, op.providerId, op.allowed).db, db.payouts[i], db.refunds[k].amount;
    var reference := db.refunds[k].reference;
    hide Perform, CompletePaymentRefund, Books, RefundsInv, HasEntry, FindRefund, Balance, Total, Taken;
    RowOf(mid, i);
    AppliedEntries(mid, i, a, reference);
    ApplyBasis(mid, i, a, reference);
    AppliedPayout(mid, i, a, reference);
    LeftOverIsReduced(p, a);
    hide Inv, ApplyRefund, RowInv, ReducePayout, LeftOver, PayoutConstraint, ReturnsInv;
    TakenEntry(db.entries, EntryFor(db, i, if p.status == PaidOut then RefundRecovery else RefundReversal,
                                    Taken(p, Total(db.entries, i, RefundRecovery), a), reference), account);
  }

  // ---------------------------------------------------------------- over a run

  /** The refund that an operation books on order i, if it books one. */
  function Booking(db: Db, op: Op, i: nat): Option<nat> {
    if !(op.OpCompleteRefund? && op.r < |db.requests| && db.requests[op.r].refundRef.Some?) then None
    else
      var k := FindRefund(db.refunds, db.requests[op.r].refundRef.value);
      if Books(db, op, i, k) then Some(k) else None
  }

  /** What a run books on order i while its payout is open, or once it is paid. */
  function BookedSum(start: Db, ops: seq<Op>, i: nat, paid: bool): int {
    if ops == [] then 0
    else
      var db, op := Run(start, ops[..|ops| - 1]), ops[|ops| - 1];
      BookedSum(start, ops[..|ops| - 1], i, paid)
      + if i < |db.payouts| && Booking(db, op, i).Some?
           && (if paid then db.payouts[i].status == PaidOut else IsOpen(db.payouts[i]))
        then db.refunds[Booking(db, op, i).value].amount else 0
  }

  /** The amounts of payout i, and what the ledger has recovered and reversed for it. */
  ghost predicate SameMoney(db: Db, after: Db, i: nat) {
    && i < |db.payouts| == |after.payouts|
    && var p, q := db.payouts[i], after.payouts[i];
       && q.gross == p.gross && q.sellerFunded == p.sellerFunded && q.fee == p.fee && q.net == p.net
       && Total(after.entries, i, RefundRecovery) == Total(db.entries, i, RefundRecovery)
  }

  lemma OrderStepMoney(db: Db, op: Op, i: nat)
    requires i < |db.payouts|
    requires op.OpCapture? || op.OpMarkPaid? || op.OpProcessing? || op.OpShipped? || op.OpDelivered? || op.OpCancel?
    ensures SameMoney(db, Perform(db, op).db, i)
  {
    hide BalanceAudit, Settle, RequestPayout, MarkPayoutPaid, OpenDispute, ResolveDispute, CompleteReturnRefund;
    hide RequestReturn, AdvanceReturn, ApproveRefund, CreateRefund, CompletePaymentRefund, Total;
  }

  lemma EntryMoney(entries: seq<Entry>, e: Entry, i: nat)
    requires !FromRefund(e)
    ensures Total(AddEntry(entries, e), i, RefundRecovery) == Total(entries, i, RefundRecovery)
  {
    EntryAdded(entries, e, i, RefundRecovery);
    hide Total;
  }

  lemma SettleMoney(db: Db, seller: int, j: nat, settlementRef: string, verified: bool, orderAudit: bool, i: nat)
    requires i < |db.payouts|
    ensures SameMoney(db, Settle(db, seller, j, settlementRef, verified, orderAudit).db, i)
  {
    hide BalanceAudit, AddEntry, Total;
    if j < |db.payouts| {
      EntryMoney(db.entries, EntryFor(db, j, Credit, db.payouts[j].net, "settlement:" + settlementRef), i);
    }
  }

  lemma PaidMoney(db: Db, seller: int, j: nat, externalRef: string, allowed: bool, orderAudit: bool, i: nat)
    requires i < |db.payouts|
    ensures SameMoney(db, MarkPayoutPaid(db, seller, j, externalRef, allowed, orderAudit).db, i)
  {
    hide BalanceAudit, AddEntry, Total, Balance;
    if j < |db.payouts| {
      var p := db.payouts[j];
      var source := if p.payoutRef.Some? then p.payoutRef.value else externalRef;
      EntryMoney(db.entries, EntryFor(db, j, PayoutDebit, p.net, source), i);
    }
  }

  lemma OtherStepMoney(db: Db, op: Op, i: nat)
    requires i < |db.payouts|
    requires op.OpRequestPayout? || op.OpOpenDispute? || op.OpResolveDispute? || op.OpRequestReturn?
             || op.OpAdvanceReturn? || op.OpApproveRefund? || op.OpCreateRefund? || op.OpPaymentRefund?
    ensures SameMoney(db, Perform(db, op).db, i)
  {
    hide RefundedTotal, FindRefund, Total, MarkPayoutPaid, Settle, CompleteReturnRefund;
    hide CapturePayment, MarkPaid, MarkProcessing, MarkShipped, MarkDelivered, Cancel;
  }

  /** A completion that books nothing leaves payouts and entries alone. */
  lemma NothingBooked(db: Db, seller: int, r: nat, providerId: string, allowed: bool)
    requires RefundsInv(db)
    requires var after := CompleteReturnRefund(db, seller, r, providerId, allowed);
             after.error.Some? || db.requests[r].status != RefundApproved
    ensures var after := CompleteReturnRefund(db, seller, r, providerId, allowed).db;
            after.payouts == db.payouts && after.entries == db.entries
  {
    hide RefundsInv, FindRefund, RefundedTotal, ApplyRefund, RefundAudit, PayoutConstraint;
  }

  lemma CompletionMoney(db: Db, op: Op, i: nat)
    requires Inv(db) && RefundsInv(db) && i < |db.payouts| && op.OpCompleteRefund? && Booking(db, op, i).None?
    ensures SameMoney(db, Perform(db, op).db, i)
  {
    CompletionIsPerformed(db, op);
    if op.r < |db.requests| && Booking(db, op, db.requests[op.r].order).Some? {
      var k := Booking(db, op, db.requests[op.r].order).value;
      BookingTakes(db, op, db.requests[op.r].order, k, db.payouts[i].account);
      hide Perform, Books, Inv, RefundsInv, Total, Taken, LeftOver, FindRefund, Balance;
    } else {
      hide Inv, RefundsInv, Total, FindRefund, CompletePaymentRefund, Book, Perform;
      NothingBooked(db, op.seller, op.r, op.providerId, op.allowed);
    }
  }

  /** Every operation: only a booking changes the amounts of a payout or what was recovered for it. */
  lemma StepMoney(db: Db, op: Op, i: nat)
    requires Inv(db) && RefundsInv(db) && i < |db.payouts|
    ensures var after, booking, p := Perform(db, op).db, Booking(db, op, i), db.payouts[i];
            && |after.payouts| == |db.payouts|
            && if booking.None? then SameMoney(db, after, i)
               else
                 var a, recovered := db.refunds[booking.value].amount, Total(db.entries, i, RefundRecovery);
                 && a > 0 && after.payouts[i] == LeftOver(p, a)
                 && Total(after.entries, i, RefundRecovery)
                    == recovered + if p.status == PaidOut then Taken(p, recovered, a) else 0
  {
    var booking := Booking(db, op, i);
    if booking.Some? {
      BookingIsApplied(db, op, i, booking.value);
      BookingTakes(db, op, i, booking.value, db.payouts[i].account);
      hide Perform, Books, Inv, RefundsInv, Total, Taken, LeftOver, FindRefund, ApplyRefund, CompletePaymentRefund,
           Balance;
    } else if op.OpCompleteRefund? {
      CompletionMoney(db, op, i);
    } else if op.OpSettle? {
      hide Inv, RefundsInv, SameMoney, Settle;
      SettleMoney(db, op.seller, op.i, op.settlementRef, op.verified, op.orderAudit, i);
    } else if op.OpPayoutPaid? {
      hide Inv, RefundsInv, SameMoney, MarkPayoutPaid;
      PaidMoney(db, op.seller, op.i, op.externalRef, op.allowed, op.orderAudit, i);
    } else {
      hide *;
      if op.OpCapture? || op.OpMarkPaid? || op.OpProcessing? || op.OpShipped? || op.OpDelivered? || op.OpCancel? {
        OrderStepMoney(db, op, i);
      } else {
        OtherStepMoney(db, op, i);
      }
    }
    hide Inv, RefundsInv, Perform, Total, FindRefund, Books, Taken, LeftOver;
  }

  lemma NothingRecovered(db: Db, i: nat)
    requires Inv(db) && i < |db.payouts|
    ensures 0 <= Total(db.entries, i, RefundRecovery)
            <= if db.payouts[i].status == PaidOut then db.payouts[i].net else 0
    ensures PayoutConstraint(db.payouts[i]) && db.payouts[i].net >= 0
  {
    hide ReturnsInv, ExternalInv, EntriesInv, Total, Count;
    RowOf(db, i);
    TotalsFromCounts(db.entries, i, RefundRecovery);
  }

  /** No operation adds or removes a payout. */
  lemma {:induction false} SamePayouts(start: Db, ops: seq<Op>)
    requires Start(start)
    ensures |Run(start, ops).payouts| == |start.payouts|
  {
    if ops != [] {
      var n := |ops| - 1;
      SamePayouts(start, ops[..n]);
      ReachedFromStart(start, ops[..n]);
      StepOnPayout(Run(start, ops[..n]), ops[n], 0);
      hide Perform, Inv, RefundsInv, Start;
    }
  }

  /** The last operation of a run, and what it adds to what was booked. */
  lemma LastBooking(start: Db, ops: seq<Op>, i: nat, paid: bool)
    requires ops != [] && i < |Run(start, ops[..|ops| - 1]).payouts|
    ensures var db := Run(start, ops[..|ops| - 1]);
            var booking := Booking(db, ops[|ops| - 1], i);
            BookedSum(start, ops, i, paid) == BookedSum(start, ops[..|ops| - 1], i, paid)
              + if booking.Some? && (if paid then db.payouts[i].status == PaidOut else IsOpen(db.payouts[i]))
                then db.refunds[booking.value].amount else 0
  {
    hide Run, Booking;
  }

  /** Main result over every run of whole calls: what is recovered from a paid payout is the sum of the refunds
      booked on it since it was paid, or all of its net if they come to more. */
  lemma {:induction false} RecoveredIsBooked(start: Db, ops: seq<Op>, i: nat)
    requires Start(start) && i < |start.payouts|
    ensures var db, booked := Run(start, ops), BookedSum(start, ops, i, true);
            && i < |db.payouts| && booked >= 0
            && (db.payouts[i].status != PaidOut ==> booked == 0)
            && Total(db.entries, i, RefundRecovery) == if booked <= db.payouts[i].net then booked else db.payouts[i].net
  {
    SamePayouts(start, ops);
    ReachedFromStart(start, ops);
    NothingRecovered(Run(start, ops), i);
    if ops != [] {
      var n := |ops| - 1;
      SamePayouts(start, ops[..n]);
      RecoveredIsBooked(start, ops[..n], i);
      ReachedFromStart(start, ops[..n]);
      var db := Run(start, ops[..n]);
      NothingRecovered(db, i);
      LastBooking(start, ops, i, true);
      StepMoney(db, ops[n], i);
      StepOnPayout(db, ops[n], i);
      hide Start, Perform, Inv, RefundsInv, Total, Booking, BookedSum, PayoutConstraint;
    }
  }

  /** What the net of a payout has left: its net at checkout, less the refunds booked while it was open. */
  lemma {:induction false} NetIsLeft(start: Db, ops: seq<Op>, i: nat)
    requires Start(start) && i < |start.payouts| && start.payouts[i].fee >= 0
    ensures i < |Run(start, ops).payouts|
    ensures var p, q, booked := start.payouts[i], Run(start, ops).payouts[i], BookedSum(start, ops, i, false);
            && q.sellerFunded == p.sellerFunded && q.fee == p.fee && booked >= 0
            && q.net == (if booked <= p.net then p.net - booked else 0)
  {
    SamePayouts(start, ops);
    ReachedFromStart(start, ops);
    NothingRecovered(Run(start, ops), i);
    if ops != [] {
      var n := |ops| - 1;
      SamePayouts(start, ops[..n]);
      NetIsLeft(start, ops[..n], i);
      ReachedFromStart(start, ops[..n]);
      var db := Run(start, ops[..n]);
      NothingRecovered(db, i);
      LastBooking(start, ops, i, false);
      StepMoney(db, ops[n], i);
      hide Start, Perform, Inv, RefundsInv, Total, Booking, Taken, BookedSum;
    }
  }

  /** What the ledger owes for payout i, by its net and the refunds booked since it was paid. */
  ghost function Owed(start: Db, ops: seq<Op>, i: nat): int
    requires i < |Run(start, ops).payouts|
  {
    var p, late := Run(start, ops).payouts[i], BookedSum(start, ops, i, true);
    if p.status == PaidOut then -(if late <= p.net then late else p.net)
    else if Count(Run(start, ops).entries, i, Credit) == 1 then p.net
    else 0
  }

  ghost function OwedSum(start: Db, ops: seq<Op>, account: Account, n: nat): int
    requires n <= |Run(start, ops).payouts|
  {
    if n == 0 then 0
    else OwedSum(start, ops, account, n - 1)
         + if Run(start, ops).payouts[n - 1].account == account then Owed(start, ops, n - 1) else 0
  }

  lemma {:induction false} ExposureIsOwed(start: Db, ops: seq<Op>, account: Account, n: nat)
    requires Start(start) && n <= |Run(start, ops).payouts|
    ensures ExposureSum(Run(start, ops).payouts, Run(start, ops).entries, account, n)
            == OwedSum(start, ops, account, n)
  {
    SamePayouts(start, ops);
    if n > 0 {
      ExposureIsOwed(start, ops, account, n - 1);
      RecoveredIsBooked(start, ops, n - 1);
      hide Start, Run, BookedSum, Total, Count;
    }
  }

  /** The signed balance of an account, over every run of whole calls: the nets of its credited payouts that are
      not paid yet, less for each paid one the refunds booked since, up to its net. */
  lemma BalanceFromRefunds(start: Db, ops: seq<Op>, account: Account)
    requires Start(start)
    ensures Balance(Run(start, ops).entries, account)
            == OwedSum(start, ops, account, |Run(start, ops).payouts|)
  {
    BalanceIsExposure(start, ops, account);
    ExposureIsOwed(start, ops, account, |Run(start, ops).payouts|);
    hide Start, Run, BookedSum, Total, Count, ExposureSum, OwedSum, Balance;
  }
}
